# Wairz, modelled and proved in Dafny

Wairz analyses firmware images. Around its analysis tools it keeps a number of programs in which several parties share
state, or which print texts that other programs read back. This project models those programs and proves what each is for.

- `UartBuffer`: the UART bridge's serial manager. One event loop, any number of connects, disconnects, commands, raw writes
  and reads, and one background reader share a capped byte buffer; they interleave at their awaits only.
- `PipelinePhases`, `PipelineOutput`: the FirmAE pipeline. The first is its phase machine under the threads that write it,
  with every read-then-write as two steps; the second its session registry, pattern table and trimmed output on the
  objects' own fields.
- `DumpEngine`: the device bridge's dump of many partitions, with retries, skipping and one cancel flag. What happens at
  each await is read off a script, so a statement about every script is one about every schedule.
- `LineSpec`, `CoverageRows`, `CoverageFile`, `CoverageLock`: the coverage file editor, from interval lists and row edits to
  the whole file's text and the lock file around its read-modify-write. `Text` has Python's string and integer conversions.
- `StringScan`, `Taint`, `Json`, `GhidraJson`: the Ghidra scripts' string scan and taint enumeration with their caps, a
  reader for RFC 8259 (sections 2 to 7), and the scripts' hand-written printers against it.
- `PythonBumps`: version order, floors, and the bumps with their rollback around an arbitrary resolver.
- `Migrator`, `FindingsChain`: the advisory lock around schema migrations, and the six migrations that extend the check on
  `findings.source`.
- `SwitchProject`: the active project of each MCP session, loaded, switched, reverted and refreshed.
- `FlashStub`: the fake flash of the emulation stubs, its C buffers and backing files against a map.
- `AsyncLint`: the linter for blocking calls in async functions, line ranges against the shape of the tree.
- `Wrappers`, `Octets`, `Sequences`: shared datatypes and facts.

`dafny verify dfyconfig.toml` checks all of it.

## Where the code and its words disagree

The model follows the code.

- `stop` (pipeline.py:181) is described as stopping a session; a stop that comes before the run's thread has written its
  first phase is undone (`PipelinePhases.StopCanBeUndone`). `RaceFreeRuns` and `RacesRevive` give the exact condition.
- Resuming a dump is described as redoing what is incomplete; any non-empty image is skipped (`DeviceManager.Visit`). A cancel
  flag left from an earlier dump ends the next one before it starts anything (`DeviceManager.DumpAll`).
- A comment in the taint script's step 3 says one path per callee; it lists one path per callee and source, to the
  callee's first sink (`Taint.PathsAreExact`).
- The string scan is described as finding what `strings` finds; it wants a NUL, and of a printable run longer than 4095 bytes
  reports only the last 4095 (`StringScan.StringsAreExact`).
- `switch_project` answers that it went back to the earlier project even when that was blank and the new one stays active
  (`SwitchProject.RevertRestores`), and names the wrong path when it did go back (`AnswerNamesTheOldPath`).
- The flash stub's path buffer is said to need 256 bytes; 83 are enough (`FlashStub.BuildBackingPath`).
- The linter is described as telling nested functions apart by the tree; it does so by lines. The two agree exactly on the
  files in which no blocking call of an async function sits only in decorators of the definitions nested around it
  (`AsyncLint.RightButForDecorators`, `DecoratorIsReportedTwice`).

## Model

| member | source | states |
|---|---|---|
| `UartBuffer.EveryRun` | scripts/wairz-uart-bridge.py:78-297 | In every interleaving, at the awaits, of connects, disconnects, readers, commands, raw writes and reads: the bytes received are, in order and without overlap, the logged segments (to a command, to a read, cleared, dropped by the cap) followed by the buffer; the buffer is the newest received bytes, at most 1 MiB; a non-empty buffer means the data event is set or a read is in its delay; every finished call returned exactly the bytes the log gives it |
| `UartBuffer.EveryRunFrom` | scripts/wairz-uart-bridge.py:78-297 | The same, together with the lock and numbering invariants, from any state that has them |
| `UartBuffer.KeepsInv` | scripts/wairz-uart-bridge.py:150-297 | One atomic stretch of any coroutine keeps the whole invariant |
| `UartBuffer.KeepsConserved` | scripts/wairz-uart-bridge.py:279-292 | No stretch loses, duplicates or reorders a byte without logging where it went, nor lets the buffer pass the cap |
| `UartBuffer.KeepsWakeup` | scripts/wairz-uart-bridge.py:210-227 | No stretch leaves a coroutine asleep beside buffered bytes: only a read that has just woken clears the event without draining |
| `UartBuffer.KeepsHolding` | scripts/wairz-uart-bridge.py:174-227 | What a call has collected or returned stays equal to what the log says it was given |
| `UartBuffer.KeepsLockHeld` | scripts/wairz-uart-bridge.py:150-208 | The serial lock is taken exactly when one live call is in its write or its wait, and that call is the holder |
| `UartBuffer.KeepsNumbered` | scripts/wairz-uart-bridge.py:124-146 | The stored reader handle keeps naming a reader, so cancelling it never hits another call |
| `UartBuffer.LockKeptThroughout` | scripts/wairz-uart-bridge.py:155-191 | A command that holds the lock at the end of a run has held it throughout: once given back it is never its own again |
| `UartBuffer.CommandsExclude` | scripts/wairz-uart-bridge.py:155-191 | While a command holds the lock no other command takes or clears a byte, however the rest interleaves |
| `UartBuffer.QuietRun` | scripts/wairz-uart-bridge.py:155-191 | With at most a bufferful arriving and no connect, disconnect or read completing, what a command holds plus the buffer stays exactly what arrived since it took the lock |
| `UartBuffer.CommandReturnsItsBytes` | scripts/wairz-uart-bridge.py:155-191 | Under the same conditions a command returns exactly the bytes received between taking the lock and its last look, and leaves the buffer empty and the lock free |
| `UartBuffer.ConnectStartsEmpty` | scripts/wairz-uart-bridge.py:103-121 | A finished connect leaves an empty buffer and a cleared event, with what was in the buffer logged as cleared, and its own reader reading |
| `UartBuffer.ReadsAreSinceConnect` | scripts/wairz-uart-bridge.py:103-227 | Whatever happens after a connect, a read returns the newest received bytes, and only bytes that arrived since that connect |
| `UartBuffer.CommandAlone` | scripts/wairz-uart-bridge.py:150-208 | A command that nothing interrupts takes the lock, returns what the reader delivered after its write, and leaves the buffer empty and the lock free |
| `UartBuffer.PollGoesOn` | scripts/wairz-uart-bridge.py:176-200 | A poll that does not see the prompt adds the buffer to what is collected, empties it, clears the event and keeps the lock |
| `UartBuffer.LateWriteGivesUp` | scripts/wairz-uart-bridge.py:175-208 | A command whose deadline has passed when its write ends returns nothing, takes no byte and frees the lock |
| `UartBuffer.RawWriteAlone` | scripts/wairz-uart-bridge.py:239-247 | A raw write or break takes the lock, leaves every byte where it was and frees the lock |
| `UartBuffer.ReadAlone` | scripts/wairz-uart-bridge.py:210-227 | A read that nothing interrupts returns the whole buffer and leaves it empty |
| `UartBuffer.DisconnectAlone` | scripts/wairz-uart-bridge.py:124-148 | A disconnect stops the reader, closes the port and leaves no byte behind |
| `UartBuffer.ReaderRecovers` | scripts/wairz-uart-bridge.py:279-305 | A reader goes on after an error and its pause; a lost port ends it and the connection, and loses no buffered byte |
| `UartBuffer.CallsRefused` | scripts/wairz-uart-bridge.py:86-103 | Connecting while connected, and sending or reading while not, changes nothing; a failed open leaves no connection behind |
| `UartBuffer.SerialManager.BackgroundReader` | scripts/wairz-uart-bridge.py:279-292 | The reader's stretch on the fields: append, cut the excess off the front, set the event, with the history kept |
| `UartBuffer.SerialManager.SendCommand` | scripts/wairz-uart-bridge.py:155-191 | The polling loop returns the newest bytes of each wait's arrivals joined, stops at the first poll whose total shows the prompt, leaves an empty buffer and loses no byte from the history |
| `PipelinePhases.RaceFreeRuns` | system-emulation/shim/pipeline.py:157-197 | Over any interleaving of start, stop, output lines, watchdog and exit without a race (an end written by another thread while the run's own thread has a write in hand): phases only move forward in phase order, no finished run comes back, and only the registered run of a session is live |
| `PipelinePhases.AtMostOneLiveRun` | system-emulation/shim/pipeline.py:157-169 | Without a race no session ever has two runs in a non-terminal phase |
| `PipelinePhases.WholeRunsAreCalm` | system-emulation/shim/pipeline.py:157-197 | With each start taken through its thread's first write, and each monitor comparison with its write, as single steps, every interleaving is race-free: nothing is revived, no phase goes back, no session has two live runs |
| `PipelinePhases.WholeStepsAreRaceFree` | system-emulation/shim/pipeline.py:285-291 | Such runs contain no race, from any state with no write pending |
| `PipelinePhases.RacesRevive` | system-emulation/shim/pipeline.py:181-197 | The condition is exact: after a race, however the other threads interleave, the pending write takes the finished run back to a non-terminal phase |
| `PipelinePhases.DoomedStays` | system-emulation/shim/pipeline.py:285-291 | A finished run whose thread has a write pending stays that way under every step of other threads until the write |
| `PipelinePhases.DecisionsAreLive` | system-emulation/shim/pipeline.py:283-291 | The monitor only ever decides on a non-terminal phase |
| `PipelinePhases.StopCanBeUndone` | system-emulation/shim/pipeline.py:181-197 | A concrete run: stop before the thread's first write ends in EXTRACTING, not STOPPED |
| `PipelinePhases.TwoRunsCanBeLive` | system-emulation/shim/pipeline.py:157-197 | A concrete run: the same early stop lets a second run of the session start beside the first |
| `PipelinePhases.EndedRunsAreOver` | system-emulation/shim/pipeline.py:243-264 | With or without races, whatever ended it, a run whose thread has ended is terminal unless its process left with code 0 while RUNNING |
| `PipelinePhases.ExitDecides` | system-emulation/shim/pipeline.py:243-259 | The exit of the process, with no other thread between its look and its write, leaves a finished phase as it was, leaves RUNNING exactly if the phase was RUNNING and the code 0, gives FAILED in every other case, and changes no other run |
| `PipelinePhases.LeftIn` | system-emulation/shim/pipeline.py:247-259 | The phase after an exit: RUNNING exactly from RUNNING with code 0, a finished phase unchanged, FAILED otherwise |
| `PipelinePhases.RunningOutlivesProcess` | system-emulation/shim/pipeline.py:247-259 | After an exit with code 0 in RUNNING, and any further steps of all threads without a stop's write, the run is still RUNNING |
| `PipelinePhases.OwnMovesDecide` | system-emulation/shim/pipeline.py:181-264 | Without a stop's write, a run's phase, thread and watchdog are what its own steps make of it, whatever all other threads do in between |
| `PipelinePhases.UndisturbedRun` | system-emulation/shim/pipeline.py:194-264 | A new run that is left alone ends RUNNING exactly if some line showed RUNNING and the process left with 0, and FAILED otherwise, however the steps of all other threads fall between its own |
| `PipelinePhases.StartDecides` | system-emulation/shim/pipeline.py:149-197 | A start is refused exactly while the registered run is live; otherwise exactly one new run is registered and goes to EXTRACTING |
| `PipelinePhases.StopDecides` | system-emulation/shim/pipeline.py:181-192 | A stop that nothing interrupts makes a live run STOPPED, leaves a finished one as it was, and touches no other |
| `PipelinePhases.LineDecides` | system-emulation/shim/pipeline.py:285-291 | A line's hit becomes the phase exactly if it comes later on the ladder of phases |
| `PipelinePhases.WatchdogDecides` | system-emulation/shim/pipeline.py:397-425 | The watchdog leaves runs that are over, RUNNING or CHECKING alone and stops watching; of the others it times out exactly the late ones |
| `PipelinePhases.BreakdownFails` | system-emulation/shim/pipeline.py:199-264 | A run whose script is missing, or whose thread breaks down, has FAILED |
| `PipelinePhases.CalmStep` | system-emulation/shim/pipeline.py:397-425 | Every step that is no race keeps the one-live-run invariant and moves no phase backward |
| `PipelineOutput.FirstHit` | system-emulation/shim/pipeline.py:47-54 | The first pattern found in a line is the furthest phase any pattern of it stands for, because the table is in descending order |
| `PipelineOutput.AppendKeepsTrimmed` | system-emulation/shim/pipeline.py:272-277 | Appending and trimming keep the buffer a suffix of the whole log, at most 5000 lines, at least 2000 once trimmed, and count every trim |
| `PipelineOutput.TailOfTail` | system-emulation/shim/pipeline.py:517-522 | For 1 to 2000 lines the tail of the buffer is the tail of the whole log |
| `PipelineOutput.TrimmingIsCheap` | system-emulation/shim/pipeline.py:272-277 | Lines copied by all trims together are fewer than lines received |
| `PipelineOutput.PipelineState.MonitorOutput` | system-emulation/shim/pipeline.py:268-291 | With no other writer the phase ends as the maximum of its start and all pattern hits, and every line is in the log in order |
| `PipelineOutput.PipelineManager.Start` | system-emulation/shim/pipeline.py:149-179 | Start fails exactly if the session's run is live; otherwise exactly one new PENDING run is registered |
| `PipelineOutput.PipelineManager.Stop` | system-emulation/shim/pipeline.py:181-192 | Stop answers whether the session is known and leaves it terminal, an ended one as it was, the output untouched |
| `PipelineOutput.PipelineManager.OneLivePerSession` | system-emulation/shim/pipeline.py:157-169 | Two live runs of one session are the same run |
| `PipelineOutput.PipelineManager.GetOutput` | system-emulation/shim/pipeline.py:517-522 | The last n lines of the whole log for 1 to 2000; for n = 0 the whole buffer, for a negative n the buffer without its first -n lines, as Python slices |
| `DumpEngine.DeviceManager.DumpAll` | scripts/wairz-device-bridge.py:803-890 | For every schedule of cancels, chunks, stalls and failures: the history is, report by report and in partition order, the attempts at the report's own partition and then the report, whatever names repeat, with at most three attempts each and none after one not worth retrying; reports stop short only behind a cancelled one; an accepted cancel is still flagged at the end, nothing starts and no output is read after it, and of the summary's reports only the interrupted partition's and one more follow it; completed is the number of reports that say complete or skipped and failed the number that say error; with valid names and a clear flag, if nobody cancels, nothing raises and every read brings bytes or the end of a stream, every partition is reported, as complete or skipped; a flag left over from before ends the dump before it starts anything |
| `DumpEngine.HonouredMeans` | scripts/wairz-device-bridge.py:915-920 | Honouring a cancel means that no partition's dump starts anywhere after an accepted one |
| `DumpEngine.CountsAddUp` | scripts/wairz-device-bridge.py:882-890 | The completed, failed, cancelled and uncounted reports add up to all; with valid names none is uncounted |
| `DumpEngine.CountsByStatus` | scripts/wairz-device-bridge.py:886-889 | The completed are the reports that say complete or skipped, the failed those that say error, told by the statuses alone |
| `DumpEngine.HopelessErrors` | scripts/wairz-device-bridge.py:860-863 | An error is not worth another attempt exactly if it mentions 'permission' or 'not installed' in any mixture of cases |
| `DumpEngine.ValidNames` | scripts/wairz-device-bridge.py:28 | A partition name is valid exactly if it is one or more letters, digits, underscores and dashes, with perhaps one newline at the end |
| `DumpEngine.CancelsKeep` | scripts/wairz-device-bridge.py:915-920 | Cancel requests at an await start nothing, report nothing and break no promise |
| `DumpEngine.DeviceManager.CancelDump` | scripts/wairz-device-bridge.py:915-920 | A cancel is accepted exactly while a partition is being dumped, and then sets the flag |
| `DumpEngine.DeviceManager.DumpPartition` | scripts/wairz-device-bridge.py:521-560 | One attempt either fails before it is announced, changing nothing, or clears the flag exactly once, at its start, and keeps every cancel after that; no other image is touched; a complete image is exactly the stream's bytes |
| `DumpEngine.DeviceManager.RealDumpPartition` | scripts/wairz-device-bridge.py:562-648 | The image file holds exactly the bytes streamed so far, whatever ended the stream, and its length is the reported size |
| `DumpEngine.DeviceManager.CopyStream` | scripts/wairz-device-bridge.py:585-640 | The chunk loop stores every chunk it took, in order, begins no read once the flag is up, and ends as its reads say: an error with that message at a stall or a broken read, complete at the first empty chunk |
| `DumpEngine.DeviceManager.TryPartition` | scripts/wairz-device-bridge.py:835-873 | At most three attempts, all in the history; each but the last ended in an error worth retrying; the report is the last attempt's, with retries for a late success; short of three it stops only at an end not worth retrying or at a cancel |
| `DumpEngine.DeviceManager.Visit` | scripts/wairz-device-bridge.py:822-873 | A partition is skipped exactly if skipping is asked for and its image is non-empty, whole or not |
| `LineSpec.ParseLineSpec` | scripts/update_current_coverage.py:59-80 | The token loop returns the union of the tokens' lines, or the error of the first bad token |
| `LineSpec.FormatMissing` | scripts/update_current_coverage.py:89-109 | The loop with start and end prints the maximal runs of the sorted lines |
| `LineSpec.RunsAreExact` | scripts/update_current_coverage.py:89-109 | The printed intervals are ascending, each starts at least two past the end of the one before, and together they cover exactly the lines |
| `LineSpec.SortedIsSorted` | scripts/update_current_coverage.py:92 | Sorting a set gives its elements, strictly ascending |
| `LineSpec.MissingRoundTrip` | scripts/update_current_coverage.py:83-109 | For every finite set of natural line numbers, reading the printed text gives the set back |
| `LineSpec.NormalForm` | scripts/update_current_coverage.py:83-109 | Printing what was read is a normal form: reading it again gives the same set, and printing that the same text |
| `LineSpec.TokensAreNatural` | scripts/update_current_coverage.py:59-80 | Whatever text is accepted, the lines read from it are natural numbers |
| `LineSpec.PlainTokens` | scripts/update_current_coverage.py:62-79 | A token without a dash is blank and names nothing, or is a number and names that line, or is refused by name |
| `LineSpec.DashedTokens` | scripts/update_current_coverage.py:65-74 | A token with a dash is split at the first one; it is taken exactly if both parts are numbers in order, and then names every line between them; otherwise it is refused by name |
| `LineSpec.PairRoundTrip` | scripts/update_current_coverage.py:66-74 | A printed range of naturals is read back as that range |
| `Text.IntRoundTrip` | scripts/update_current_coverage.py:69-79 | Printing and reading a whole number gives it back |
| `CoverageRows.ConsistentBounds` | scripts/update_current_coverage.py:112-127 | A consistent row that is up to date has 0 <= miss <= stmts and a cover from 0 to 100 |
| `CoverageRows.CoverIsShare` | scripts/update_current_coverage.py:112-114 | Cover is the covered share of the statements in percent: 100 with nothing missed or nothing to cover, 0 with all missed, and lower with more missed |
| `CoverageRows.EditsKeepTheCount` | scripts/update_current_coverage.py:219-239 | Whichever lines they leave, adding or removing covered lines keeps miss equal to the file's statements on the missing lines, through printing and re-reading the text |
| `CoverageRows.ReplaceSetsTheCount` | scripts/update_current_coverage.py:242-249 | Replacing the missing lines makes miss exact whatever the row was |
| `CoverageRows.LastEditWins` | scripts/update_current_coverage.py:219-239 | Adding and then removing a spec is removing it, and removing and then adding it is adding it, whatever the row was; what each of them leaves is stated by the methods |
| `CoverageRows.EditsAbsorb` | scripts/update_current_coverage.py:219-239 | The same on the line sets, before the text round trip |
| `CoverageRows.CoverageTable.SetCovered` | scripts/update_current_coverage.py:210-216 | The named row gets miss 0, full cover and no missing lines; an unknown row is an error that changes nothing |
| `CoverageRows.CoverageTable.AddLinesAsCovered` | scripts/update_current_coverage.py:219-227 | After it the named row's text reads as the lines that were missing and not given, its miss is lower by the statements on those both missing and given, its cover fits, and no other row changes; it fails exactly for an unknown row, an unreadable text or spec, or lines to count in a missing file, and then changes nothing |
| `CoverageRows.CoverageTable.RemoveLinesAsCovered` | scripts/update_current_coverage.py:230-239 | After it the named row's text reads as the lines that were missing or given, its miss is higher by the statements on those given and not missing, and so on as for adding |
| `CoverageRows.CoverageTable.ReplaceFileMissing` | scripts/update_current_coverage.py:242-249 | After it the named row's text reads as exactly the given lines, its miss is the statements on them, and so on as for adding |
| `CoverageRows.CoverageTable.AddTestFile` | scripts/update_current_coverage.py:252-260 | A new fully covered row of the file's statement count, or an error that changes nothing |
| `CoverageFile.FileRoundTrip` | scripts/update_current_coverage.py:136-207 | Reading the text that was written gives back exactly the rows whose counts are readable, active or commented out, with stmts, miss, cover and missing text, and the total |
| `CoverageFile.WholeTableComesBack` | scripts/update_current_coverage.py:136-207 | No row is lost exactly if every row has 0 <= miss and, unless it has no statements, miss <= stmts; the row pattern has no sign, so a row outside that vanishes on the next read |
| `CoverageFile.RowMatch` | scripts/update_current_coverage.py:154-175 | A printed row matches the row pattern, with its own fields, exactly if its counts are readable |
| `CoverageFile.PrintedCover` | scripts/update_current_coverage.py:170-175 | The printed cover, read as a number with two decimals, is within half a hundredth of the exact cover, and 100.00 where nothing is missed |
| `CoverageFile.Columns` | scripts/update_current_coverage.py:170-175 | In a row whose fields fit, the name stands left in 79 columns, the three numbers right in the next ones, then the percent sign and the missing lines |
| `CoverageFile.OutdatedRowsAreComments` | scripts/update_current_coverage.py:129-133 | A row is printed as a comment exactly if its file is gone or no longer has the row's number of statements |
| `CoverageFile.RowLineRead` | scripts/update_current_coverage.py:136-168 | Commented out or not, a printed row's line is read as the row or passed over |
| `CoverageFile.PaddedLines` | scripts/update_current_coverage.py:148-163 | White space before and after a comment sign makes no difference to what a line is read as; an active row that starts with white space is passed over |
| `CoverageFile.TotalRead` | scripts/update_current_coverage.py:139-147 | The printed total line is read back as the total |
| `CoverageFile.HeadRead` | scripts/update_current_coverage.py:148-163 | The header and the rule are passed over |
| `CoverageFile.ParseRows` | scripts/update_current_coverage.py:136-167 | The line loop computes the table of the lines, or the ValueError of the first bad one |
| `CoverageFile.WriteFile` | scripts/update_current_coverage.py:190-207 | The loop over the rows writes the header, every row's line, the rule and the total |
| `CoverageLock.UpdatesAreSerial` | scripts/update_current_coverage.py:263-286 | For any number of updaters with timeouts, kills and exceptions: whenever the lock file is gone, the coverage file is what the updaters make of it one after another, in lock order: each its edit, or nothing if it raised before writing, or what was written when its write raised |
| `CoverageLock.WithoutHalfWrites` | scripts/update_current_coverage.py:190-207 | Unless a write raised in the middle, that is the whole edits of the updaters that did not raise |
| `CoverageLock.HalfWriteStays` | scripts/update_current_coverage.py:263-286 | A write that does raise in the middle leaves the half-written file with the lock file gone: a concrete run |
| `CoverageLock.OneInside` | scripts/update_current_coverage.py:263-286 | At most one updater is inside, none has two turns, and one that timed out had none |
| `CoverageLock.ReadsAreSettled` | scripts/update_current_coverage.py:366-368 | The text an updater reads is what the turns before its own left, never a write still under way |
| `CoverageLock.StaleLockFreezes` | scripts/update_current_coverage.py:263-286 | After an updater killed inside, or one whose unlink failed, nobody enters again: file, turns and lock stay as they are |
| `CoverageLock.NoWedgeWithoutOne` | scripts/update_current_coverage.py:263-279 | Without such an updater, whoever tries when nobody is inside gets its turn |
| `CoverageLock.UpdatersArrive` | scripts/update_current_coverage.py:263-286 | From any reachable state with the lock free: an updater that takes it, reads, writes what its edit makes of the file in any number of pieces and unlocks has had the next turn and has left normally, whatever all the others do in between |
| `CoverageLock.GivesUpAfterTwentySeconds` | scripts/update_current_coverage.py:265-279 | An updater gives up exactly when it finds the lock taken twenty seconds or more after its arrival; it enters whenever it finds it free |
| `CoverageLock.RunKeepsInv` | scripts/update_current_coverage.py:263-413 | Every run keeps the lock, file and turn invariants |
| `StringScan.Scan` | ghidra/scripts/FindStringRefs.java:74-198 | The block loop with both caps computes the fold over every string of the initialized, non-executable blocks |
| `StringScan.ScanBlock` | ghidra/scripts/FindStringRefs.java:80-197 | The cursor loop over one block takes exactly the block's strings, in order, and stops early only when full |
| `StringScan.ReadString` | ghidra/scripts/FindStringRefs.java:88-116 | The inner loop finds the printable bytes from the cursor, up to 4096, and whether a NUL ends them |
| `StringScan.CollectRefs` | ghidra/scripts/FindStringRefs.java:153-181 | The reference loop keeps the first references from inside functions, up to 50 and to what is left of 200 |
| `StringScan.StringsAreExact` | ghidra/scripts/FindStringRefs.java:84-128 | Exactly one string per NUL with at least four printable bytes before it, starting at the later of the run's start and 4095 before the NUL |
| `StringScan.StringsAreOrdered` | ghidra/scripts/FindStringRefs.java:84-128 | The strings are in address order, at least four bytes long, each after the terminator of the one before |
| `StringScan.FoundString` | ghidra/scripts/FindStringRefs.java:93-128 | A scan that ends at a NUL has found that NUL's string, and leaves the cursor outside every later one |
| `StringScan.ScanIsCapped` | ghidra/scripts/FindStringRefs.java:74-198 | Against the uncapped results: the references are their first 200, the strings are a prefix of theirs, nothing is cut below 200 references, totalRefs is the number of reported references, and the 500-result cap never binds |
| `StringScan.AllStringsAre` | ghidra/scripts/FindStringRefs.java:74-128 | The strings scanned are exactly those of the initialized, non-executable blocks: printable from their start to a NUL, 4 to 4095 bytes, and as long as they can be |
| `StringScan.BlocksInOrder` | ghidra/scripts/FindStringRefs.java:74-80 | Strings of earlier blocks come before those of later ones |
| `StringScan.BlockInOrder` | ghidra/scripts/FindStringRefs.java:80-197 | Within a block the strings come by address, each after the end of the one before |
| `StringScan.FunctionRefsAre` | ghidra/scripts/FindStringRefs.java:161-181 | The references kept are those whose source lies in a function, all of them, in their order |
| `StringScan.ResultsAreExact` | ghidra/scripts/FindStringRefs.java:129-189 | Every entry is a string of a data block that the pattern finds, under its own address, with at least one reference, all from inside functions; no address comes twice; and below 200 references no such string with such a reference is missing |
| `Taint.Analyze` | ghidra/scripts/TaintAnalysis.java:52-161 | The script's paths are the first fifty of the uncapped enumeration, direct ones first |
| `Taint.BuildTables` | ghidra/scripts/TaintAnalysis.java:52-95 | The tables hold each function's source calls, sink calls and distinct callees, in order |
| `Taint.Intraprocedural` | ghidra/scripts/TaintAnalysis.java:97-124 | Step 2 with its cap checks is the first fifty of its enumeration |
| `Taint.Interprocedural` | ghidra/scripts/TaintAnalysis.java:126-161 | Step 3 with its cap checks goes on to fifty |
| `Taint.PathsAreExact` | ghidra/scripts/TaintAnalysis.java:97-161 | A path is in the uncapped enumeration exactly if it is a source call before a sink call of one function, or a source call of a function none of whose calls is a sink call, with that sink call of a function it calls before which no sink call is listed |
| `Taint.EachPathOnce` | ghidra/scripts/TaintAnalysis.java:97-161 | No path is listed twice where no call reference is |
| `Taint.PathsAreOrdered` | ghidra/scripts/TaintAnalysis.java:97-161 | The paths come in one order, which decides what the cap keeps: direct ones first, by function, source and sink as they are listed, then those through a call, by function, first call of the callee, and source |
| `Json.RoundTrip` | ghidra/scripts/FindStringRefs.java:207-261 | Reading a printed value by RFC 8259 gives the value back exactly if its strings have only characters the printing style can print; otherwise the text is not JSON |
| `Json.CharsRead` | ghidra/scripts/FindStringRefs.java:241-261 | The same for one quoted string, whatever follows it |
| `Json.EveryValueIsFine` | ghidra/scripts/TaintAnalysis.java:182-228 | The styles of jsonString and jsonStr can print every string |
| `GhidraJson.JsonString` | ghidra/scripts/FindStringRefs.java:241-261 | The character loop prints the string, or null, as JSON |
| `GhidraJson.JsonStr` | ghidra/scripts/AnalyzeBinary.java:537-561 | The same with the short escapes for backspace and form feed |
| `GhidraJson.StringsReadBack` | ghidra/scripts/AnalyzeBinary.java:537-561 | Both read back for every string |
| `GhidraJson.ReplacesAreEscapes` | ghidra/scripts/StackLayout.java:245-252 | The five chained replaces are one map over the characters |
| `GhidraJson.MapToJson` | ghidra/scripts/StackLayout.java:225-243 | The printed map is read back as the map exactly if its only control characters are newline, carriage return and tab; otherwise the text is not JSON |
| `GhidraJson.TaintToJson` | ghidra/scripts/TaintAnalysis.java:182-206 | The printed paths are the JSON array of their field maps |
| `GhidraJson.TaintReadsBack` | ghidra/scripts/TaintAnalysis.java:182-206 | They read back as they were |
| `GhidraJson.FindToJson` | ghidra/scripts/FindStringRefs.java:207-239 | The printed results are the JSON array of their entries and references |
| `GhidraJson.FindReadsBack` | ghidra/scripts/FindStringRefs.java:207-239 | They read back as they were |
| `PythonBumps.VersionKey` | scripts/fix-github-security-and-quality.py:306-314 | The part loop computes the first run of numbers, or (0,) |
| `PythonBumps.KeyOfDotted` | scripts/fix-github-security-and-quality.py:306-314 | The key of a dotted version, with or without a leading v, is its numbers |
| `PythonBumps.VersionsArePreordered` | scripts/fix-github-security-and-quality.py:317-318 | version_ge is total, reflexive and transitive, and equivalence is having the same key |
| `PythonBumps.VersionsCompareByNumbers` | scripts/fix-github-security-and-quality.py:317-318 | A dotted version is at least another exactly if its numbers are larger at the first difference, or go on where the other's end |
| `PythonBumps.FloorsGoUp` | scripts/fix-github-security-and-quality.py:338-352 | No floor raise_floor touches goes down, each reaches the new version and is one of the two, its cap is the next major of the new floor, and nothing else changes |
| `PythonBumps.CapIsNextMajor` | scripts/fix-github-security-and-quality.py:333-335 | The cap is above the floor and is exactly the next major |
| `PythonBumps.RaisesSettle` | scripts/fix-github-security-and-quality.py:338-352 | Raising again changes nothing, and two raises in either order end on equivalent floors |
| `PythonBumps.Backend.ApplyPythonBumps` | scripts/fix-github-security-and-quality.py:664-705 | With an arbitrary resolver, the disk ends as the bulk result or as the retry loop's, and the answer counts the bumps applied |
| `PythonBumps.Backend.Retry` | scripts/fix-github-security-and-quality.py:682-702 | The loop with its saved good copies is one verified step after another |
| `PythonBumps.FinalDisk` | scripts/fix-github-security-and-quality.py:664-705 | The final disk is the verified bulk result, or the fold of exactly the successful bumps over the original, or with none of them the original |
| `PythonBumps.StepsAreApplied` | scripts/fix-github-security-and-quality.py:682-702 | The retry loop's disk is the fold of the bumps it applied, each succeeding on top of those before it |
| `PythonBumps.NextBump` | scripts/fix-github-security-and-quality.py:682-702 | The next bump is applied exactly if the resolver succeeds on top of the last good disk and the lock file then has the package at that version or later; otherwise the disk stays the last good one |
| `PythonBumps.Backend.Try` | scripts/fix-github-security-and-quality.py:664-680 | One try leaves the disk as the resolver did, and succeeds exactly if the resolver did and every bump's package is locked at its version or later |
| `PythonBumps.SkippedLeaveNoTrace` | scripts/fix-github-security-and-quality.py:682-702 | Run on the applied bumps alone, the loop applies them all and ends on the same disk |
| `PythonBumps.VerifiedExactlyIfStepsKeep` | scripts/fix-github-security-and-quality.py:682-702 | A resolver leaves every run's applied bumps verified if and only if no single successful step undoes a bump of a run that was verified until then |
| `PythonBumps.AppliedStayVerified` | scripts/fix-github-security-and-quality.py:649-661 | One that never lowers a locked version does |
| `PythonBumps.EarlierBumpCanBeLost` | scripts/fix-github-security-and-quality.py:682-702 | Not every one does: a concrete resolver and two bumps, the first applied and verified and then undone by the second |
| `Migrator.MigratorsSerialize` | backend/alembic/env.py:57-72 | For any number of migrators with failures and crashes, at most one is inside and the committed history is a prefix of the revision chain |
| `Migrator.EachRevisionOnce` | backend/alembic/env.py:57-72 | No revision is applied twice |
| `Migrator.EndedMeansHead` | backend/alembic/env.py:57-72 | Whenever some migrator has finished normally the database is at head; MigratorsArrive says when one does |
| `Migrator.MigratorsArrive` | backend/alembic/env.py:57-72 | From any reachable state with the lock free: a migrator that takes it, begins, applies every missing revision, commits and unlocks ends normally with the database at head, whatever all the others do in between |
| `Migrator.CommitMakesHead` | backend/alembic/env.py:65-69 | A commit with nothing left to apply makes the whole chain the committed history |
| `Migrator.FailureRollsBack` | backend/alembic/env.py:65-72 | A failed migration leaves the database as it was, and the lock free after its unlock |
| `Migrator.CommittedStays` | backend/alembic/env.py:57-72 | What is committed is never taken back, and at head every later migrator changes nothing |
| `Migrator.CrashesDoNotWedge` | backend/alembic/env.py:57-72 | A waiting migrator gets the lock exactly if no live one is inside, crashes or not |
| `Migrator.PlanIsRest` | backend/alembic/env.py:65-69 | The plan made from the version table is exactly the part of the chain not yet applied |
| `SwitchProject.StatesAreWhole` | backend/app/mcp_server.py:326-412 | After any calls of any sessions, each session's state is blank or the complete image of one loadable firmware of its own project, from a database some call saw |
| `SwitchProject.Server.SwitchProject` | backend/app/mcp_server.py:543-612 | The answer is Already exactly if the project is the current one and no firmware was asked for; Failed exactly if then no loadable firmware is found; Missing exactly if the found one's translated directory, or blob, is not there; otherwise Switched, and then the session's state shows that firmware in every field, with the wanted identifier if one was given; after Already and Failed the state is as it was, after Missing it is the earlier firmware's if that can still be found and else the new one's; no other session's object changes |
| `SwitchProject.Server.RefreshAfterTool` | backend/app/mcp_server.py:810-826 | After a refresh the session's state shows its firmware as the database now has it, or is as it was if that is no longer loadable; no other session's object changes |
| `SwitchProject.Server.State` | backend/app/mcp_server.py:463-492 | A session's object is made at its first call, with the preset project's firmware if one is found and blank otherwise, shared with no other session, and kept after that |
| `SwitchProject.ProjectState.Load` | backend/app/mcp_server.py:326-412 | Loading writes the whole translated image or nothing |
| `SwitchProject.SessionsAreIndependent` | backend/app/mcp_server.py:463-492 | Each session ends every run as if its own calls had been all there were |
| `SwitchProject.FailedCallLeavesNoTrace` | backend/app/mcp_server.py:570-584 | A switch whose lookup fails leaves no trace: every run goes on, for all sessions, as if it had not been called |
| `SwitchProject.RevertRestores` | backend/app/mcp_server.py:586-612 | With the database unchanged, a switch onto missing paths puts the earlier state back exactly if it was not blank; a blank one stays replaced |
| `SwitchProject.AnswerNamesTheOldPath` | backend/app/mcp_server.py:598-612 | After such a revert the answer names the restored state's path, not the missing one |
| `SwitchProject.RefreshSettles` | backend/app/mcp_server.py:814-826 | Refreshing against an unchanged database changes nothing |
| `SwitchProject.ImageLoadsAgain` | backend/app/mcp_server.py:247-302 | A loaded image is found again by its own identifiers, and comes out the same |
| `SwitchProject.EarliestIsEarliest` | backend/app/mcp_server.py:293-302 | Without an identifier the first of the earliest loadable firmwares is chosen, and there is an error exactly if none is loadable |
| `SwitchProject.WithIdIsFirst` | backend/app/mcp_server.py:277-291 | With an identifier the choice has it and is loadable, and with unique identifiers succeeds exactly if there is one such |
| `SwitchProject.TranslationGoesBack` | backend/app/mcp_server.py:157-168 | Translating a path can be undone exactly if the path is at or below the container's root, or not at or below the host's: only there do two paths become one |
| `SwitchProject.ImageShows` | backend/app/mcp_server.py:326-412 | A loaded image shows its project and firmware field by field, every path translated, and its path is missing exactly if the host has no such directory or blob |
| `SwitchProject.CarvedIsBeside` | backend/app/mcp_server.py:367-373 | The carving directory lies beside the stored blob |
| `FindingsChain.ListsAgree` | backend/alembic/versions/9c0d1e2f3a4b_extend_findings_source_esp.py:91-169 | Each migration's allowlist as written out is its parent's as written out with its own sources at the end, and its UPDATE and its filter name exactly those |
| `FindingsChain.DowngradeRestoresParent` | backend/alembic/versions/3b5c4d6e7f8a_extend_findings_source_mft.py:151-171 | At every level the written list filtered is the parent's written list, in its order |
| `FindingsChain.ValuesSince` | backend/alembic/versions/9c0d1e2f3a4b_extend_findings_source_esp.py:91-136 | The list written at a level holds exactly the sources that have arrived by then |
| `FindingsChain.UpgradeFits` | backend/alembic/versions/9c0d1e2f3a4b_extend_findings_source_esp.py:144-150 | An upgrade to the list written there changes no row and is never refused |
| `FindingsChain.DowngradeFits` | backend/alembic/versions/9c0d1e2f3a4b_extend_findings_source_esp.py:153-169 | A downgrade's UPDATE turns exactly the rows of its own sources into manual ones, its filter restores the parent's list, and it is never refused |
| `FindingsChain.WalksAreNeverRefused` | backend/alembic/versions/a7b8c9d0e1f2_extend_findings_source_lnk.py:130-155 | No walk up and down the chain, with accepted inserts in between, is ever refused because of existing rows |
| `FindingsChain.RowsSurvive` | backend/alembic/versions/6e9f7a0b1c3d_extend_findings_source_wmi.py:143-168 | No row is lost, and a row has become manual exactly if the walk has been below the level its source arrives with |
| `FindingsChain.InsertFits` | backend/alembic/versions/3b6c4d5e6f7a_extend_findings_source_bcd.py:152-159 | An insert is accepted exactly if its source has arrived by the current level |
| `FlashStub.BuildBackingPath` | emulation/stubs/fake_mtd.c:441-462 | The path builder writes exactly prefix, name up to 64 characters, suffix and NUL, at most 83 bytes, and leaves the rest of the buffer |
| `FlashStub.CopyName` | emulation/stubs/fake_mtd.c:453-459 | The bounded copy writes the name's first 64 characters and no more |
| `FlashStub.StrCopy` | emulation/stubs/fake_mtd.c:434-439 | The pointer loop writes the text and its NUL and nothing else |
| `FlashStub.MemFill` | emulation/stubs/fake_mtd.c:427-432 | The pointer loop fills exactly the stretch |
| `FlashStub.NamesShareByKey` | emulation/stubs/stubs_generic.c:401-418 | Two names share a backing file exactly if their first 64 characters agree; up to 64 characters, exactly if they are equal, and a shorter name never with a longer one |
| `FlashStub.Stub.FlashRead` | emulation/stubs/fake_mtd.c:567-600 | A read returns, of the last write to the name's key, zeros below its offset, its data, then 0xFF; without one 0xFF throughout; bytes past len stay |
| `FlashStub.Stub.FlashWrite` | emulation/stubs/fake_mtd.c:608-630 | A write replaces its key's last write and no other; no data changes nothing; a name with a slash is refused |
| `FlashStub.FlashIsLastWrites` | emulation/stubs/fake_mtd.c:608-630 | After any calls, a partition's contents are those of the last call that took effect on its key, and there are none exactly if there was no such call |
| `FlashStub.WrittenReadsBack` | emulation/stubs/fake_mtd.c:567-630 | After a write that is not refused, every name with the same first 64 characters reads zeros below the offset, the bytes, then 0xFF; every other partition reads as before; one never written reads 0xFF |
| `AsyncLint.ScanFile` | backend/scripts/lint_async_subprocess.py:85-94 | The two walks report, for every async definition, its calls outside of nested line ranges |
| `AsyncLint.ScanAsyncBody` | backend/scripts/lint_async_subprocess.py:40-82 | The two passes report exactly the blocking calls below the definition on lines no nested definition spans |
| `AsyncLint.NestedRanges` | backend/scripts/lint_async_subprocess.py:60-67 | The collected ranges cover a line exactly if some nested definition spans it |
| `AsyncLint.RightButForDecorators` | backend/scripts/lint_async_subprocess.py:40-94 | On files laid out as parsed files are (a definition ends no earlier than its calls, and the calls on its lines are its own), what is reported is exactly the blocking calls whose innermost definition is async, each under that definition, if and only if no blocking call of an async function sits only in decorators of all the definitions between the two; no function reports a call twice |
| `AsyncLint.WholeLinesSuffice` | backend/scripts/lint_async_subprocess.py:40-94 | So it is where every definition's lines hold its own blocking calls and no others, and there no call is reported under two functions |
| `AsyncLint.SkipsAreBetween` | backend/scripts/lint_async_subprocess.py:60-76 | In such a file a call's line is skipped for a function exactly if some definition between the two starts no later than the call |
| `AsyncLint.ViolationIs` | backend/scripts/lint_async_subprocess.py:40-94 | A violation is an async definition around a blocking call whose line no definition nested in it spans |
| `AsyncLint.ViolationsByLine` | backend/scripts/lint_async_subprocess.py:58-82 | The same on line numbers: no nested definition starts at or before the call's line and ends at or after it |
| `AsyncLint.DecoratorIsReportedTwice` | backend/scripts/lint_async_subprocess.py:40-94 | A concrete tree, laid out as parsed files are, with a call in the decorator of a nested async definition: the condition fails and the call is reported under both |
| `AsyncLint.BlockingCalls` | backend/scripts/lint_async_subprocess.py:24-37 | A call in an async function is reported exactly if it is one of run, Popen, call, check_call and check_output of the plain name subprocess |

## Left out

- UART: decoding, prompt matching (an arbitrary test of the bytes), echo stripping, the transcript, and cancelled client tasks; deadlines are given, as the poll after which a command stops. The reader is named by the connect that opened its port.
- Pipeline: the regular expressions themselves (a line comes with the patterns found in it), guest addresses and web ports, the file-system discovery, process termination and network clean-up, the phase-change callback.
- Dump: the mock and MediaTek back ends, the size query's answer, progress and rate figures, failures to open the image file, and two dumps at once.
- DumpEngine.DeviceManager.DumpAll: at most two reports follow an accepted cancel, the interrupted partition's own and one more; that the next dump always attempts its first partition is not true of the code and is stated only for a flag that is clear.
- Coverage rows: reading a Python file for its statement lines; a row's file is given by its set of statement lines, and a missing file is an error of the edit.
- CoverageRows.ConsistentBounds: cover is a fraction of whole numbers, not a float; the tolerance check before writing is not part of this model.
- CoverageFile.WriteFile: names are written in the order given, where the script sorts them; nothing proved depends on the order. The total's counts are given; summing the rows that are not outdated is not part of this model.
- CoverageFile.FileRoundTrip: the cover text is the exact value rounded to two decimals, ties up, where Python rounds the binary float; digits other than 0 to 9 that Python's int or the pattern would take, and floats with exponents, infinities or underscores, are read as errors.
- CoverageLock.UpdatesAreSerial: where an edit raises is up to the run; which system calls raise is not modelled. The clock is the event list's; what the commands print. An edit, with its reading and printing, is an arbitrary partial function of the text.
- String scan: cancellation by the user; block addresses are whole numbers, so the end of the address space is the end of its block; Ghidra's reference iterators and the regular expression are given as tables.
- Taint: reading call references out of instructions, cancellation, and splitting the argument lists; the fields of a path map are its parts as printed by TaintToJson.
- Json.RoundTrip: characters are Unicode scalar values, so unpaired surrogates, which the scripts copy unchanged, and escaped surrogates, which the reader refuses, do not occur; numbers are whole.
- GhidraJson.FindToJson: addresses print without characters that need an escape, as Ghidra's do; the printer does not escape them.
- GhidraJson.MapToJson: the remaining objects that StackLayout and AnalyzeBinary print field by field.
- PythonBumps.Backend.ApplyPythonBumps: notes and log lines, read and write errors, and interruptions that are not exceptions; editing a package's constraint (upsert_constraint) is an arbitrary function of the text.
- PythonBumps.FloorsGoUp: finding dependencies in the text is the pattern's work; the text comes split at the matches. Digits are 0 to 9 and case folding is ASCII's.
- npm bumps, alert collection, autofix, branches and pull requests: calls to other programs and field-by-field policy.
- Migrator: migrations are transactional, as PostgreSQL's are, and their chain has no branches; offline mode prints SQL only.
- Findings chain: sources are named by constructors, one for each text in the lists; the chain below its first migration here, and the migrations in between, which do not touch this check.
- SwitchProject.StatesAreWhole: a call is one step of its session; a second call of the same session during an await inside a load is not modelled, nor are database errors after the lookup, nor the stdio server's single shared state. The detection roots of a firmware are what looking them up answers. Parsing the identifiers of a request and wording the answers are left to the caller. The branch for a project without a firmware cannot be reached.
- SwitchProject.RevertRestores: primary keys hold, and no project has the nil identifier, as the database ensures.
- FlashStub.Stub.FlashWrite: writes and reads by the system are whole; no other program touches the backing files. erase_mtd, which answers success and changes nothing, the vendor stubs, the tracing open and the system-call wrappers are not part of this model.
- AsyncLint.ScanFile: the order of the reports (`ast.walk` goes breadth first), their text, and files that do not parse.
- Everything else in the repository: the web application, the services and agents, the frontend, and table-only migrations.
