# Archive walk, fetch and bookkeeping: a Dafny model

The repository collects evidence of historical hostnames from web archive indexes. This project models
the parts of it that run unattended and must not lose anything, and proves what they promise:

- **The extended CDX walk.** `CdxIndex` is the sorted index in blocks and the ten subpages of a page.
  `WalkState` and `WalkSystem` are one lane's calls and files as values, with an adversary that chooses the
  answers, the interleaving of the workers and the kills. `WalkLane` is the lane as a class whose methods are
  held to those functions. `WalkCoverage`, `WalkSettle`, `WalkRuns` and `WalkProbes` prove that no row of a booked
  page is lost, nor one behind a probe that had rows; `WalkClean`, `WalkCleanRuns`, `WalkGone` and `WalkSafe` that
  from a clean start no call under the lock raises and no probe is lost, kills included but of one kind; `WalkAlone`
  that one worker is safe from every kill; `WalkWindow` that with three a kill of this kind can lose rows; `WalkAgain`,
  `WalkSift` and `WalkReopen` that with two it can always lead to a call that raises, which makes the kind exact;
  `WalkMeasure` that the walk ends; `WalkParked` which parked slices are asked again. `WalkTakes` says which task is
  asked next and what a new process starts with, `WalkFails` says what each answer comes to and what parks a slice,
  `WalkStop` what a booked answer queues, drops and keeps, and that a cut page is asked no further down than the slice
  that reaches the cut row. `WalkPending` is the text of `pending.txt`; `WalkJobs`, `WalkLog`, `WalkSilence`,
  `WalkTardy` and `WalkRebuild` are the rebuild of the done set from the log, when it books more than the walker, and
  exactly what it books; `LineStream` the line splitters and the journals of one answer.
- **The platform walk.** `PlatformWalk` is the resume-key sibling: its journal, its saved key, and what a kill
  leaves.
- **The downloader.** `Transfer` is streaming and range continuation, `Fetch` the loop around it, `Robots` the
  robots.txt evaluator against RFC 9309.
- **Fast forms of simple things.** `SortedLines` (binary search in a line file), `OneEdit` (the one-edit
  neighbourhood against Levenshtein distance), `RangeFile` (a block-cached remote file), `Export` (bytewise
  sort, first of run and merge-join), `SuffixConvert` (an incremental conversion against one batch).
- **Bookkeeping.** `BankTrigger` (no arrival is lost) and `Findings` (booking is idempotent).

`Strings` and `Splitting` hold order and `split`. What the source updates in place is a class or a loop with
invariants here; each such method is held to a function or a declarative predicate, and the theorems are
lemmas about those. Check it all with `dafny verify dfyconfig.toml`.

## What turned out false, and when it holds

- **The walk's crash safety has one hole, with two workers or more.** `settle` writes `pending.txt` and then appends to
  `done.txt` (`cdx_extended_walk.py:485-488`). Killed between the two after an answer that queued subpages, a restart
  can ask the page again beside its own subpages; a copy of a subpage then loses its entry in `meta`, a later prune
  raises `KeyError` (469) after its task has left the in-flight set, and rows of a booked page are lost.
  How many workers there are decides (`--workers` defaults to 1, line 496; `cdx_walk_jobs.py:23` starts 3), and that no
  page is taken ahead of the owed subpages (`EARLY = 0`, lines 68 and 306):
  - one worker and no early page: whatever the plans and the answers and wherever the kills fall, no call raises
    (`AloneNeverRaises`) and every booked row is explained (`AloneCovered`): the owed subpages are a stack, and a page
    is asked only when it is empty;
  - one worker, if pages were taken early: a killed page leads to a call that raises (`EarlyPageRaises`);
  - two workers or more, no early page: exactly which kills in the window are harmful is known (`WindowKillExact`). In a
    run from a clean start one is harmless, in that no later run of as many workers without a harmful kill has a call
    that raises, if and only if the answer queued no subpages, or the slice is a subpage and, if a probe opened it, no
    probe of its page that is still queued or in flight has a row in its own slice. So the harmful ones are those of a
    page that queued subpages (`PageRaises`) and of an opened sibling whose page a live probe can open again
    (`SiblingRaises`), and two workers are enough for both;
  - three workers, no early page: `KillInWindowLosesRow` is a run from a new walk's first state with one such kill, after
    which a row of a booked page is gone from memory and files.

  Every kill at any other point is harmless. Over all runs, whatever the workers and the kills, coverage holds as long
  as no prune raises and no answer loses a probe (`RunCovered`), and from a clean start neither happens (`RunClean`).
- **The fourth silence of a subpage need not be one.** A subpage is booked as silent, its rows given up, at a 504 that
  follows three failed answers of it since the start, of any kind and not in a row (`SilentExactly`): three throttles and
  a single 504 are enough (`ThrottlesCount`), where the walker's own account (lines 27-28) has four silences. Likewise the
  ninth failure that parks a slice is counted since the start (`ParkedExactly`).
- **Parked slices are not all asked again at the next start**, as the log line says (446): a slice parked by an
  answer is asked after the next start if and only if it is a page or a question that the plan has
  (`ParkedAtRestart`), because parking takes subpages out of `pending.txt` (444-445). `ParkedSubpageLeft` is a run
  whose parked subpage is booked nowhere and comes back under no plan.
- **`pending.txt` reads back as written** if and only if no cut row's urlkey holds a tab or a line break
  (`PendingRoundTrip`, `OwedRoundTrip`).
- **The rebuild from the log raises** if and only if a question's page is owing (`Done`): its page is a
  domain, and `int` refuses it.
- **The rebuild can book a subpage the walker did not**: the log spans restarts and the walker counts silences from
  its own start, so three silences, a restart and a fourth are enough (`RebuildBooksMore`). After a restart some run of
  that life ends with the rebuild booking more, if and only if it can do so at once, or a slice smaller than a page that
  is not booked ends its requests in the log with one to three silences and can be asked: it is a question, or owed, or
  an unopened sibling of a probe that is owed and has a row (`RestartExact`; one worker is enough). When no restart finds
  it so, the rebuild books no more over any number of lives (`LogBooksNoMore`), a kill right after a log row included.
- **A continuation that the last allowed request completes counts as a failure** (`RoundsSucceed` is the exact
  condition on the server's replies, `LastRoundWasted` an example).
- **Robots can be looser than the standard** where a crawl delay between two agent lines splits a group that section
  2.2.4 of RFC 9309 keeps whole. `StandardIsMerged` computes the standard's groups from the evaluator's;
  `FileNeverLooser` says exactly for which agent lines and delays some path rules make the reading looser, and
  `SplitLooser` is one file. On the groups as read it never is (`NeverLooser`). Percent-encoding, on which the two
  can differ too, is left out.
- **A second check inside a bank hides an arrival** (`SecondCheckHides`), and an approvals or marker change
  between a check and its stamp is never a reason (`ApprovalsStampedLate`).
- **Booking twice is booking once** if and only if no re-measured slug has its topmost row above the table
  (`Idempotent`, and on the pages `BookTwice`): such a row is never removed, so each run replaces again.
- **Keeping every journal unchanged is not enough for the converter**: a journal marked bad after a passing
  read error is not read again until it changes. `BadReadLost` runs into it; the outputs are the batch's if and only
  if they have every line of each bad journal (`BadIsBatch`).

## Model

| member | source | states |
|---|---|---|
| `CdxIndex.SubpagesSplit` | scripts/engines/cdx_extended_walk.py:104-111 | A row lies in a page exactly when it lies in one of its ten 1/10 subpages, and in only one. |
| `CdxIndex.SubInPage` | scripts/engines/cdx_extended_walk.py:104-111 | A row of a subpage is a row of its page. |
| `WalkState.DropLowerJoins` | scripts/engines/cdx_extended_walk.py:468-470 | The prune takes lower siblings out of the queue and keeps the order: it works on each part of the queue by itself. |
| `WalkState.DropLowerCopies` | scripts/engines/cdx_extended_walk.py:468-470 | Every other task keeps all its copies in the queue, and a lower sibling has none left. |
| `WalkLane.Lane.constructor` | scripts/engines/cdx_extended_walk.py:224-250 | A new process is the restart function of the two files and the units' tasks, and leaves the files alone. |
| `WalkLane.Lane.SavePending` | scripts/engines/cdx_extended_walk.py:284-288 | The file lists the owed subpages in order, then each in-flight one once; a task without a meta raises and changes nothing. |
| `WalkLane.Lane.Pop` | scripts/engines/cdx_extended_walk.py:318-328 | The head of the first unit with a page left becomes in flight and is counted as asked; with none left nothing changes. |
| `WalkLane.Lane.Take` | scripts/engines/cdx_extended_walk.py:302-316 | Perhaps an early page, else the first owed subpage not booked meanwhile, else the first unit's page; booked owed ones are dropped. |
| `WalkLane.Lane.Requeue` | scripts/engines/cdx_extended_walk.py:290-300 | An unanswered task goes back to its place and out of flight, and `pending.txt` is rewritten unless a lookup raised. |
| `WalkLane.Lane.Fail` | scripts/engines/cdx_extended_walk.py:440-461 | A failed task is parked after its ninth failure unless the address is at fault, else put back with its counter raised. |
| `WalkLane.Lane.Prune` | scripts/engines/cdx_extended_walk.py:462-470 | The task leaves flight and meta; a cut subpage that starts before the cut drops its lower siblings, or raises exactly when an owed task has no meta. |
| `WalkLane.Lane.TakeIn` | scripts/engines/cdx_extended_walk.py:462-484 | Prune, open and split in that order, as the booking function of the lane says. |
| `WalkLane.Lane.Settle` | scripts/engines/cdx_extended_walk.py:433-488 | The new lane and both files are the settle function's: the key is booked, in memory and on disk, only after `pending.txt` is written. |
| `WalkSettle.PrunedRowsReceived` | scripts/engines/cdx_extended_walk.py:468-470 | Every row of a lower sibling that a prune drops is already in a journal, on any sorted index. |
| `WalkSettle.CutRowsReceived` | scripts/engines/cdx_extended_walk.py:477-482 | When a page is cut, its rows before the last one that came are all in a journal. |
| `WalkSettle.RestAccounted` | scripts/engines/cdx_extended_walk.py:471-476 | When a probe opens its siblings, each of their rows is accounted for. |
| `WalkCoverage.StillCovered` | scripts/engines/cdx_extended_walk.py:433-488 | Coverage survives any change that hands each task that leaves over to something finer. |
| `WalkCoverage.BookKeyCovered` | scripts/engines/cdx_extended_walk.py:485-488 | Booking a key whose rows are accounted for more finely keeps coverage, other copies of the task included. |
| `WalkRuns.RestartKeeps` | scripts/engines/cdx_extended_walk.py:224-250 | A restart from files that cover every booked page starts from a lane that does. |
| `WalkProbes.StepKept` | scripts/engines/cdx_extended_walk.py:290-328 | Every step, a kill between any two writes included, keeps each booked row accounted for and each sampled page's probes unshown, save a settle that raises or loses a probe. |
| `WalkProbes.SettleProbed` | scripts/engines/cdx_extended_walk.py:462-484 | After an answer is taken in, no probe of a page sampled and not opened has brought a row, and each is still owed, was parked, or was answered with none. |
| `WalkProbes.RunCovered` | scripts/engines/cdx_extended_walk.py:374-488 | Walk coverage and crash safety over whole runs with any answers and kills, while no prune raises and no probe is lost: each row of each booked slice is in a journal, in a finer slice still owed, given up in the log, or in the other eight of two probes none of which has shown a row, in memory and on disk. |
| `WalkClean.NeverRaises` | scripts/engines/cdx_extended_walk.py:290-300 | On a clean lane no call under the lock looks up a missing key. |
| `WalkClean.RestFresh` | scripts/engines/cdx_extended_walk.py:471-476 | The eight opened siblings are none of them queued or in flight already. |
| `WalkClean.SubsFresh` | scripts/engines/cdx_extended_walk.py:477-482 | The subpages of a booked page are none of them queued or in flight already. |
| `WalkClean.CleanBooked` | scripts/engines/cdx_extended_walk.py:462-486 | Any booked answer leaves a clean lane: no task twice, every owed subpage with its meta, every parent booked. |
| `WalkCleanRuns.CleanRestart` | scripts/engines/cdx_extended_walk.py:224-250 | Clean files restart as a clean lane. |
| `WalkCleanRuns.CleanSysStep` | scripts/engines/cdx_extended_walk.py:374-488 | Every step but a kill in the window of a booking that queued subpages keeps lane and files clean, and no prune raises. |
| `WalkGone.WindowGone` | scripts/engines/cdx_extended_walk.py:485-488 | A kill between `pending.txt` and `done.txt` of a subpage that nothing can ask again leaves lane and files as clean as if it had been booked. |
| `WalkGone.WindowKept` | scripts/engines/cdx_extended_walk.py:485-488 | So does one after an answer that queued no subpages. |
| `WalkSafe.NoProbeLost` | scripts/engines/cdx_extended_walk.py:468-482 | On a clean lane no answer loses a probe: one that has a row opens its page, no prune takes one away, and no page falls silent after its probe had rows. |
| `WalkSafe.RunClean` | scripts/engines/cdx_extended_walk.py:374-488 | From a clean start, in every run whose plans queue no slice twice and whose kills are harmless: no call raises, no probe is lost, and every row of every booked slice is explained as above, in memory and on disk. |
| `WalkAlone.AloneStep` | scripts/engines/cdx_extended_walk.py:284-328 | One worker without early pages: every step, kills included, keeps the owed subpages a stack of slices that share no block, with at most its fellow probe below a probe, in memory and in the file, and no call raises. |
| `WalkAlone.AloneNeverRaises` | scripts/engines/cdx_extended_walk.py:302-316 | So in every run from a new walk's first state of one worker without early pages no call raises, wherever it is killed. |
| `WalkAlone.AloneCovered` | scripts/engines/cdx_extended_walk.py:374-488 | And each row of each booked slice is in a journal, in a finer slice still owed, given up in the log, or in the other eight of two probes none of which has shown a row, in memory and on disk. |
| `WalkSift.Sift` | scripts/engines/cdx_extended_walk.py:284-300 | Two workers and plain restarts reduce any owed queue to any of its tasks, booking only the others. |
| `WalkReopen.PageRaises` | scripts/engines/cdx_extended_walk.py:462-488 | From every kill in the window of a page that queued subpages, a run of two workers without early pages and without another harmful kill leads to a call that raises. |
| `WalkReopen.SiblingRaises` | scripts/engines/cdx_extended_walk.py:462-488 | So it does from every such kill of an opened sibling, while a live probe of its page has a row in its slice. |
| `WalkReopen.EarlyPageRaises` | scripts/engines/cdx_extended_walk.py:302-308 | Were pages taken early, one worker would be enough for a killed page: four steps after the next start a call raises. |
| `WalkReopen.WindowKillExact` | scripts/engines/cdx_extended_walk.py:462-488 | For every number w of workers, at any point of any run from a clean start of at most w workers without early pages whose kills were harmless: after a kill in the window no such run raises if and only if w is at most one, or the answer queued no subpages, or the slice is a subpage and, if a probe opened it, no live probe of its page has a row in its slice. |
| `WalkWindow.KillInWindowLosesRow` | scripts/engines/cdx_extended_walk.py:466-488 | A run of twenty states from a new walk's first one, of three workers without early pages and with one kill, between the two writes of a booking, that ends with a row of a booked page in no journal, owed by no one and exempt from nothing, in memory and in the files. |
| `WalkTakes.TakenExactly` | scripts/engines/cdx_extended_walk.py:302-328 | The next task is the head of the first early unit with a page left; else the first owed subpage that was not booked meanwhile, those before it forgotten; else the head of the first other unit with one left. A page leaves its queue and counts as asked; nothing else changes. |
| `WalkTakes.RestartExactly` | scripts/engines/cdx_extended_walk.py:224-250 | A new process owes the tasks of the file that are not booked, in its order and each for the reason of its first line; the pages of the `rest` lines read are open; each unit has the tasks of its plan that are not booked, in order, and the others count as asked. |
| `WalkTakes.AddedExactly` | scripts/engines/cdx_extended_walk.py:252-265 | A unit that comes later has its tasks not booked, in order, the others counted as asked. |
| `WalkFails.OutcomeExactly` | scripts/engines/cdx_extended_walk.py:433-461 | An answer books its slice exactly when it is whole or has rows, is a 504 of a page or of a subpage that failed three times, or a 400 of a subpage; else it fails the slice once more, and the ninth failure parks it when the status is none of the eight that blame the address. |
| `WalkFails.PutBackExactly` | scripts/engines/cdx_extended_walk.py:290-300 | A failed subpage goes to the head of the owed ones; a page to the front of its unit after a 504 or one of the first dropped connections and to the back after any other failure, and counts as not asked. |
| `WalkFails.PaceExactly` | scripts/engines/cdx_extended_walk.py:447-466 | What each status does to the counters of throttles, refusals and dropped connections. |
| `WalkFails.ParkedExactly` | scripts/engines/cdx_extended_walk.py:437-446 | Over one life a slice is parked by an answer exactly when eight answers of it failed before, this one fails too and the address is not at fault. |
| `WalkFails.SilentExactly` | scripts/engines/cdx_extended_walk.py:437-440 | Over one life a 504 books a subpage exactly when three answers of it failed before, whatever their status. |
| `WalkFails.ThrottlesCount` | scripts/engines/cdx_extended_walk.py:437-440 | Three throttles and one 504 book a subpage as silent. |
| `WalkStop.BookedExactly` | scripts/engines/cdx_extended_walk.py:462-484 | A booked answer leaves on top the ten tenths, the last first, of a slice cut with rows, or the two probes of a silent page; then the other eight of a page whose probe has a row for the first time; then the old queue in order, without the slices before a cut-off one that starts before its cut row. Every meta and counter afterwards is said too. |
| `WalkStop.CutStops` | scripts/engines/cdx_extended_walk.py:467-470 | Once a cut-off slice is answered from before its cut row on and booked, no owed task of its page lies before it, and every other owed task is owed as often as before. |
| `WalkStop.StopsForGood` | scripts/engines/cdx_extended_walk.py:302-316 | From a clean start, any workers and any harmless kills: after that booking no slice before it of its page is ever taken again, but one that another worker held then. |
| `WalkStop.AloneStopsForGood` | scripts/engines/cdx_extended_walk.py:302-316 | With one worker, none at all. |
| `WalkParked.ParkedAtRestart` | scripts/engines/cdx_extended_walk.py:440-446 | A slice parked by an answer is asked again after the next start if and only if it is a page or a question of the plan. |
| `WalkParked.ParkedSubpageLeft` | scripts/engines/cdx_extended_walk.py:440-446 | A run of one worker from a new walk's first state that parks a subpage: it is booked nowhere and no plan brings it back. |
| `WalkMeasure.BookedBound` | scripts/engines/cdx_extended_walk.py:462-486 | Every booked answer lowers the measure W(s) = 1 + 10 W(s / 10) with its reserve for unopened siblings. |
| `WalkMeasure.SubpagesCost` | scripts/engines/cdx_extended_walk.py:104-111 | A page costs more than all the subpages it is split into. |
| `WalkMeasure.AnswersBounded` | scripts/engines/cdx_extended_walk.py:433-488 | Termination: over one process's life, answers that are not the address's failures number at most the starting measure and 9,999 for each page added. |
| `WalkMeasure.FreshLaneCost` | scripts/engines/cdx_extended_walk.py:241-250 | A new lane's measure is at most 9,999 for each of its tasks. |
| `WalkMeasure.UnitTotals` | scripts/engines/cdx_extended_walk.py:290-328 | Asked and still queued together stay the unit's total through every take, answer and failure. |
| `WalkPending.NumberText` | scripts/engines/cdx_extended_walk.py:199-213 | A number read back from its text is the number. |
| `WalkPending.LineText` | scripts/engines/cdx_extended_walk.py:199-207 | A line of the file, letter by letter: the slice's five words and its kind, its role, its page's five words and the cut row's key. |
| `WalkPending.DecodeEncode` | scripts/engines/cdx_extended_walk.py:204-213 | A line decodes to what was encoded if and only if no part of the meta holds a tab. |
| `WalkPending.KeyTextInjective` | scripts/engines/cdx_extended_walk.py:199-201 | Two done keys are one text only when they are one key. |
| `WalkPending.PendingRoundTrip` | scripts/engines/cdx_extended_walk.py:229-233 | The whole file reads back as written if and only if no meta holds a tab or a line break. |
| `WalkPending.OwedRoundTrip` | scripts/engines/cdx_extended_walk.py:196-213 | Role, parent and stop of every owed subpage come back through the text if and only if no stop holds a tab or a line break. |
| `WalkPending.RestartFromText` | scripts/engines/cdx_extended_walk.py:224-234 | With such stops a process started from the text is the restart function of the file as the lane wrote it. |
| `WalkJobs.Done` | scripts/engines/cdx_walk_jobs.py:53-79 | The one pass computes the least fixed point of its booking rule, or raises if and only if a question's page is owing. |
| `WalkJobs.BookOwing` | scripts/engines/cdx_walk_jobs.py:72-77 | The pass over the owing pages in ascending size. |
| `WalkJobs.PassClosed` | scripts/engines/cdx_walk_jobs.py:72-77 | A page all of whose required subpages end up booked was booked in its turn. |
| `WalkJobs.PassLeast` | scripts/engines/cdx_walk_jobs.py:72-77 | What the pass books is closed under the rule, and below every set that is. |
| `WalkLog.KnownStep` | scripts/engines/cdx_walk_jobs.py:60-71 | Over every step and restart, each row of the log is of a page or of a subpage of a booked one, and a subpage last heard silent is booked, owed, to be opened again by a live probe, or can never be asked again. |
| `WalkSilence.SettleAgrees` | scripts/engines/cdx_extended_walk.py:433-488 | One settled answer's log row books nothing that the walker does not, and counts no silence that it does not. |
| `WalkSilence.LifeAgrees` | scripts/engines/cdx_walk_jobs.py:60-71 | A life that starts with log and walker in agreement ends so. |
| `WalkTardy.RestartExact` | scripts/engines/cdx_walk_jobs.py:60-77 | After any restart of any run from a clean start whose kills were harmless, some run before the next kill ends with the rebuild able to book a key the walker has not, if and only if it is able at once, or a question, an owed subpage or an unopened sibling of an owed probe with a row, not booked, ends its requests with one to three silences. |
| `WalkTardy.LogBooksNoMore` | scripts/engines/cdx_walk_jobs.py:60-77 | Over any number of lives, a kill right after a log row included: when no restart finds it so, every key the rebuild can book is in the walker's own done set. |
| `WalkTardy.RebuildBooksMore` | scripts/engines/cdx_walk_jobs.py:64-68 | A run of one worker with three silences, a restart and a fourth, whose log books a subpage that the walker did not. |
| `WalkRebuild.DirectExactly` | scripts/engines/cdx_walk_jobs.py:61-69 | What the first reading of the log books: the keys with a whole answer, with a 400 to a subpage, or with four silences of a subpage in a row. |
| `WalkRebuild.OwingExactly` | scripts/engines/cdx_walk_jobs.py:61-71 | What it leaves owing: the keys with a cut answer that has rows, or a silence of a page, each with the status of the last such row. |
| `WalkRebuild.AnyLogExactly` | scripts/engines/cdx_walk_jobs.py:53-79 | Of any log: a key is rebuilt as booked if and only if a row books it by itself, or its last owing row is a silence, neither probe ever had a row and both probes are so, or all ten subpages are. |
| `WalkRebuild.RebuildExactly` | scripts/engines/cdx_walk_jobs.py:53-79 | From a clean start, over any harmless kills that leave no log row alone: the rebuild books a key if and only if an answer books it by itself, or the walker sampled and never opened it and both its probes are rebuilt as booked, or the walker sampled or cut it and all ten subpages are. |
| `WalkRebuild.RebuiltOnce` | scripts/engines/cdx_walk_jobs.py:72-77 | Only one set is so. |
| `LineStream.LinesMore` | scripts/engines/cdx_extended_walk.py:174-180 | More text adds the lines of the unfinished line and the text, wherever the cut falls. |
| `LineStream.LinesJoin` | scripts/engines/cdx_extended_walk.py:174-180 | The lines with their newlines and the unfinished tail are the text again. |
| `LineStream.ReadLines` | scripts/engines/cdx_hostq_convert.py:30-38 | The lines are the newline-terminated lines of the whole text, whatever the chunks. |
| `LineStream.RowExactly` | scripts/engines/cdx_extended_walk.py:401-406 | A line is a row exactly when it is four fields with single spaces between them, perhaps with more behind: the key, the stamp, the url and the status. |
| `LineStream.PairExactly` | scripts/engines/cdx_extended_walk.py:408-410 | A capture is of a host-year exactly when its url has that host and its stamp starts with that year in digits. |
| `LineStream.YearNumber` | scripts/engines/cdx_extended_walk.py:416-417 | A year's number is that of its four digits. |
| `LineStream.Sink.Line` | scripts/engines/cdx_extended_walk.py:401-411 | A line extends what the sink has taken; it then holds each pair's earliest capture, the row count and the edge keys of all its lines. |
| `LineStream.Sink.Stream` | scripts/engines/cdx_extended_walk.py:172-185 | The sink receives exactly the terminated lines in order, so it agrees with the other splitter. |
| `LineStream.Sink.Journals` | scripts/engines/cdx_extended_walk.py:413-422 | Each (host, year) of the answer up to the last year is filed in the right one of the two journals, with its earliest capture. |
| `LineStream.PutEarliest` | scripts/engines/cdx_extended_walk.py:407-411 | Keeping a row only when it is earlier keeps the first row of the least stamp. |
| `PlatformWalk.SplitPage` | scripts/engines/cdx_platform_walk.py:100-109 | Rows and key are those of the page function. |
| `PlatformWalk.PageExact` | scripts/engines/cdx_platform_walk.py:100-109 | A key is found exactly when the last text of the body stands alone behind a blank line, and every other text is a row. |
| `PlatformWalk.WordsExactly` | scripts/engines/cdx_platform_walk.py:109-109 | The words of a line are its runs of characters that are not white, in order. |
| `PlatformWalk.StripExactly` | scripts/engines/cdx_platform_walk.py:107-107 | A key is stripped of the white at both ends, all of it, and of nothing else. |
| `PlatformWalk.PairExactly` | scripts/engines/cdx_platform_walk.py:188-196 | A row is of a host-year exactly when it has three fields, a full stamp of that year, and a url whose host is the seed or a name under it. |
| `PlatformWalk.NotOkExactly` | scripts/engines/cdx_platform_walk.py:243-265 | The fifth throttle ends a run, a refusal does at once, the third other failure gives it up, and parks the platform when three runs were. |
| `PlatformWalk.KillSafe` | scripts/engines/cdx_platform_walk.py:153-174 | Whatever part of the unflushed rows a kill lets reach the disk, every row before the saved key is in a journal. |
| `PlatformWalk.AllKillsSafe` | scripts/engines/cdx_platform_walk.py:220-295 | So a kill after any recorded write of a run leaves a safe disk. |
| `PlatformWalk.FreshPairs` | scripts/engines/cdx_platform_walk.py:187-204 | The rows written have exactly the pairs not seen before, each once. |
| `PlatformWalk.Walk.constructor` | scripts/engines/cdx_platform_walk.py:153-174 | A restart resumes at the saved key, promotes every part file, forgets the seen pairs, and is safe. |
| `PlatformWalk.Walk.Save` | scripts/engines/cdx_platform_walk.py:176-185 | The state file is the walk's key and counters; it may be written only when the rows before the key are in journals. |
| `PlatformWalk.Walk.Write` | scripts/engines/cdx_platform_walk.py:187-208 | The page's new pairs, and no others, are appended and flushed; every in-scope pair of the page is then in a journal. |
| `PlatformWalk.Walk.Close` | scripts/engines/cdx_platform_walk.py:210-215 | The part file becomes a final journal with all its rows. |
| `PlatformWalk.Walk.GiveUp` | scripts/engines/cdx_platform_walk.py:255-262 | The failed run is counted and saved, and the third parks the platform. |
| `PlatformWalk.Walk.NotOk` | scripts/engines/cdx_platform_walk.py:243-265 | The fifth throttle, a refusal and the third failure end the run, and nothing else does. |
| `PlatformWalk.Walk.Receive` | scripts/engines/cdx_platform_walk.py:266-269 | The rows of a 200 answer are in a journal, up to where it ends, before the key it brings is saved. |
| `PlatformWalk.Walk.Advance` | scripts/engines/cdx_platform_walk.py:279-293 | The next key is saved after the rows before it are in journals; with no key the journal is closed and the done marker written. |
| `PlatformWalk.Walk.Accept` | scripts/engines/cdx_platform_walk.py:266-292 | The first keyless answer to a resumed key is asked again, saved nowhere; the second ends the walk with every row up to both ends in a journal; a keyed one moves on. |
| `PlatformWalk.Walk.Run` | scripts/engines/cdx_platform_walk.py:220-295 | Every write of every run leaves a safe disk; the run takes the course its answers set, the markers are written by its ending alone, and once done every row up to the ends said is in a journal. |
| `PlatformWalk.CourseFits` | scripts/engines/cdx_platform_walk.py:220-295 | A course finishes if and only if the index said the end, twice running with no 200 between for a resumed key; it is refused by its last status, throttled five times, or given up after three failures, since the last 200, and never otherwise. |
| `Transfer.Body.Read` | scripts/harness/fetch.py:489-503 | A read gives some of what is left, nothing at the end, or fails; a dropped connection breaks after its limit. |
| `Transfer.Stream` | scripts/harness/fetch.py:506-528 | What is written is a prefix of the body, all of it unless the cap is passed, and is exactly what the hasher was fed; nothing past the cap is written. |
| `Transfer.TakeReply` | scripts/harness/fetch.py:590-645 | One round: refuse, wait or append a 206 body behind what is there. |
| `Transfer.Resume` | scripts/harness/fetch.py:566-650 | The rounds decide how a continuation ends and what is appended; at most the allowed requests are sent; past the cap nothing is written, and a reply that passes it is cut. |
| `Transfer.RoundsExact` | scripts/harness/fetch.py:566-650 | Against every server whose 206 bodies are of the span asked, what is appended is the artifact from where it started. |
| `Transfer.RoundsEnd` | scripts/harness/fetch.py:566-650 | How a continuation ends, from the replies alone: it ends for a reason if and only if some replies, each a throttle of at most 300 s or a 206 from the right byte within the cap and no two empty at the same byte, lead to a reply that is refused for this reason, to a second empty one, to the end of the file, or to the last allowed request; then those are its replies, and what they brought is what was appended. |
| `Transfer.RoundsSucceed` | scripts/harness/fetch.py:566-650 | So it succeeds if and only if fewer replies than allowed, each taken, bring the file to its end. |
| `Transfer.LastRoundWasted` | scripts/harness/fetch.py:566-650 | Two hundred honest one-byte rounds bring the whole artifact and are reported as giving up. |
| `Fetch.Receive` | scripts/harness/fetch.py:799-927 | A streamed body lands as the transfer function says, hashed as written, within the cap. |
| `Fetch.Land` | scripts/harness/fetch.py:770-927 | A 200 answer is refused, continues an earlier part, or is streamed; whatever the code, what is left is the old bytes, the part with what the rounds brought, or first bytes of the body and what the rounds brought behind it, and what was written was hashed; OK leaves exactly the payload. |
| `Fetch.TryUrl` | scripts/harness/fetch.py:735-931 | A cleared url is asked at most four times and ends with the code or the redirect its answers set; every request in the trace is of a url that passed both checks. |
| `Fetch.Fetch` | scripts/harness/fetch.py:672-931 | Every artifact request, redirect hops included, is of a url just cleared by the CDX refusal and its own robots check; at most six urls of four tries and the allowed range requests; the code and the number of requests are those the answers set (`FetchEnds`); an OK rests on the last get; whatever the code, the bytes left are what one 200 of the landed url leaves or the old ones, bytes written were hashed, and exactly a streamed file that did not land is taken away. |
| `Fetch.LandedFits` | scripts/harness/fetch.py:770-927 | A 200 lands with a code if and only if its headers, its body and the replies that continue it say so: OK exactly when it is not refused and the part on disk is continued to the end, or the body comes whole, by its declared length or for want of one, or is continued to exactly the declared length; and so for every other code. |
| `Fetch.FetchEnds` | scripts/harness/fetch.py:699-931 | A fetch ends with a code after so many gets if and only if some way does: at most five redirects, every url cleared, on each at most three throttles of at most 300 s waited out, and the answer that counts at the last one landing so, or refused. |
| `Fetch.OkIsBody` | scripts/harness/fetch.py:858-927 | OK without a declared length leaves the whole body. |
| `Fetch.LeftIsPrefix` | scripts/harness/fetch.py:770-927 | Against honest servers every fetch, whatever its code, leaves first bytes of the landed url's artifact or what was there, so a part that is kept is one the next fetch can continue. |
| `Fetch.FilesKeep` | scripts/harness/fetch.py:808-846 | Over any number of fetches of an artifact that stays the same, each of them killed while writing or not, the file stays first bytes of it. |
| `Fetch.OkIsWhole` | scripts/harness/fetch.py:799-927 | OK with a declared length is the whole artifact, streamed, dropped and continued, or resumed. |
| `Robots.MatchesExact` | scripts/harness/fetch.py:316-323 | Pattern matching is the standard's: some choice of runs for the stars makes the pattern a prefix of the path, or with an end anchor the path. |
| `Robots.Groups` | scripts/harness/fetch.py:288-313 | The groups are the stretches of lines between the places where an agent line follows a rule, each with its names and its rules in order. |
| `Robots.GovernedBy` | scripts/harness/fetch.py:288-313 | A name is put over a rule exactly when an agent line of the name stands before a line of the rule with no rule followed by an agent line between. |
| `Robots.Best` | scripts/harness/fetch.py:340-356 | A group refuses exactly when some disallow rule applies and is longer than every allow rule that applies. |
| `Robots.Verdict` | scripts/harness/fetch.py:326-359 | Refused if and only if some group for us or for everyone refuses; the delay is the longest asked. |
| `Robots.RefusedExactly` | scripts/harness/fetch.py:326-359 | Refused if and only if some group with one of the eight names or `*` has a disallow, not empty, that matches and is longer than every allow of that group that matches. |
| `Robots.DelayExactly` | scripts/harness/fetch.py:343-347 | The delay is the longest number that a crawl-delay rule of such a group gives, and none without one. |
| `Robots.OneGroupExact` | scripts/harness/fetch.py:326-359 | Where one group only is for us, and names us, the verdict is that of RFC 9309. |
| `Robots.VerdictUnordered` | scripts/harness/fetch.py:326-359 | Verdict and delay do not depend on the order of groups, nor of rules in a group. |
| `Robots.NeverLooser` | scripts/harness/fetch.py:326-359 | What is allowed is allowed by RFC 9309 for each of our names, merging matching groups (section 2.2.1) and longest match with allow winning ties (section 2.2.2). |
| `Robots.GroupsExact` | scripts/harness/fetch.py:288-313 | The groups are the standard's if and only if no crawl delay alone separates two agent lines of a named group. |
| `Robots.StandardIsMerged` | scripts/harness/fetch.py:288-313 | The standard's groups of every file are the evaluator's, the names of each delay-only group handed to the next. |
| `Robots.FileNeverLooser` | scripts/harness/fetch.py:288-359 | No choice of path rules for a file's agent lines and delays is read looser than the standard if and only if every group the standard puts over one of our names is one the evaluator looks at. |
| `Robots.SplitLooser` | scripts/harness/fetch.py:288-359 | A file with such a delay that the evaluator allows and the standard refuses. |
| `SortedLines.LinesAreStarts` | scripts/engines/cdx_walk_order.py:25-35 | A key is a line of the file exactly when it stands at a line start. |
| `SortedLines.Narrows` | scripts/engines/cdx_walk_order.py:25-35 | Each probe keeps the key's line inside the range searched. |
| `SortedLines.Contains` | scripts/engines/cdx_walk_order.py:25-35 | True if and only if some line equals the key, on every C-sorted file with or without a final newline; the search ends. |
| `OneEdit.OneEditVariants` | scripts/pricing/price_items.py:159-171 | The set is exactly the names one deletion, substitution or insertion away. |
| `OneEdit.EditExact` | scripts/pricing/price_items.py:159-171 | Over the alphabet that is Levenshtein distance 1, and symmetric. |
| `OneEdit.TypoBound` | scripts/pricing/price_items.py:250-258 | The count is the number of sampled names with a known variant. |
| `OneEdit.NearCounted` | scripts/pricing/price_items.py:346-347 | What is counted is the places of the sample whose name is one edit from a known one. |
| `OneEdit.NearIsDistance` | scripts/pricing/price_items.py:346-347 | A sampled name is near exactly when some known name lies at distance 1. |
| `RangeFile.Get` | scripts/orq/q1-archive-scale.py:172-229 | The tries, keeping what a broken one brought, are the recursive function of the answers. |
| `RangeFile.GottenExactly` | scripts/orq/q1-archive-scale.py:172-229 | Bytes come if and only if one of the first six tries brings a body of the range to its end and every try before it found nothing, a 429, a server's error or a body that broke off; then all that these brought comes. |
| `RangeFile.BlockExactly` | scripts/orq/q1-archive-scale.py:407-409 | Block i is asked for as MiB i of the file, up to its end. |
| `RangeFile.NeedExactly` | scripts/orq/q1-archive-scale.py:399-400 | A block is needed exactly when some span has a byte in it. |
| `RangeFile.PlainExactly` | scripts/orq/q1-archive-scale.py:421-437 | A read of n bytes is of n, or of what is left; a negative n asks for all. |
| `RangeFile.GottenIsPrefix` | scripts/orq/q1-archive-scale.py:172-229 | Whatever breaks, what comes back is the asked bytes from their start. |
| `RangeFile.RangeFile.Prefetch` | scripts/orq/q1-archive-scale.py:397-409 | Exactly the touched blocks not cached and to be had are added, each with the artifact's own bytes. |
| `RangeFile.RangeFile.Read` | scripts/orq/q1-archive-scale.py:421-437 | The bytes a plain file would give from the position, which moves by as many, whichever blocks are cached; an error only on a block that was fetched or cached and is still short, or that cannot be had, never when all are cached whole; a negative position short of the end errs. |
| `SuffixConvert.AuthorityExactly` | scripts/engines/cdx_suffix_convert.py:92-94 | The host asked about is the url's one host part: behind the first `://`, before a path, query or fragment, behind the last `@`, without leading dots. |
| `SuffixConvert.DatesExactly` | scripts/engines/cdx_suffix_convert.py:77-102 | A line dates a registrable to a year exactly when it is a capture with a stamp of fourteen digits in the years kept, of a 2xx, a 3xx or no status, whose host part is the registrable itself. |
| `SuffixConvert.CapturesExactly` | scripts/engines/cdx_suffix_convert.py:76-82 | The rows counted are the lines that are captures. |
| `SuffixConvert.ReadJournal` | scripts/engines/cdx_suffix_convert.py:68-109 | The stamps become the least stamp of each registrable-year over all lines read so far. |
| `SuffixConvert.Converter.Gather` | scripts/engines/cdx_suffix_convert.py:135-154 | Each new or changed journal is read after its stat; nothing is read when nothing moved, each journal is counted once and recorded, and with nothing read and none bad every journal is settled. |
| `SuffixConvert.Converter.Run` | scripts/engines/cdx_suffix_convert.py:127-170 | A run killed anywhere keeps the outputs sound and the state covered by them; a new output is the least stamps of what the run's reads gave, everything read is covered by the outputs, and a run that is not killed records every journal. |
| `SuffixConvert.SettledIsBatch` | scripts/engines/cdx_suffix_convert.py:127-170 | Once all is unchanged and none bad, the outputs together have the keys of one conversion of all journals, and give each the same earliest stamp. |
| `SuffixConvert.BadIsBatch` | scripts/engines/cdx_suffix_convert.py:135-154 | With bad journals in an unchanged folder, the outputs give each key the batch's earliest stamp if and only if they have every line of each bad journal. |
| `SuffixConvert.BadReadLost` | scripts/engines/cdx_suffix_convert.py:140-154 | Two runs over a journal whose first read fails: the second reads nothing though it could, and the outputs lack what one conversion has. |
| `BankTrigger.ArrivalMoves` | scripts/harness/bank_trigger.py:122-136 | A file that lands or grows always changes its glob's digest. |
| `BankTrigger.DigestExactly` | scripts/harness/bank_trigger.py:122-136 | The newest mtime is the greatest, and files and bytes add up. |
| `BankTrigger.RunsExactly` | scripts/harness/bank_trigger.py:147-198 | The bank runs if and only if there is a find, a drained read, no stamp, or a changed approvals page or marker; or a retry waits or some glob is not as the stamp has it, and the last bank is old enough. |
| `BankTrigger.ReasonsExactly` | scripts/harness/bank_trigger.py:159-190 | A run names each of these that holds and no other. |
| `BankTrigger.MovesCounted` | scripts/harness/bank_trigger.py:175-181 | A moved glob is named with the files and bytes it gained since the stamp. |
| `BankTrigger.StampExactly` | scripts/harness/bank_trigger.py:201-212 | The stamp has the two globs that the bank writes as they stand, every other as the last check saw it, and the moment, the approvals and the marker. |
| `BankTrigger.NamesIs` | scripts/harness/bank_trigger.py:175-181 | With a stamp, a check names exactly the globs whose digest is not the stamp's. |
| `BankTrigger.Trigger.FoldDigest` | scripts/harness/bank_trigger.py:122-136 | Count, bytes and newest mtime of each glob. |
| `BankTrigger.Trigger.Check` | scripts/harness/bank_trigger.py:147-198 | The bank runs exactly for the reasons named; moves alone wait until due; a standing red blocks every check but one of finds, and leaves the files. |
| `BankTrigger.Trigger.Stamped` | scripts/harness/bank_trigger.py:201-212 | The stamp takes the last check's digest for every glob but the bank's own. |
| `BankTrigger.NamedSinceCheck` | scripts/harness/bank_trigger.py:147-212 | Over any run, a glob the bank does not write is named exactly when it is not as the stamp's check saw it. |
| `BankTrigger.ArrivalNamed` | scripts/harness/bank_trigger.py:147-237 | No arrival is lost: what lands after the stamp's check is named by every later check until the next stamp. |
| `BankTrigger.NamedRuns` | scripts/harness/bank_trigger.py:182-198 | A named glob makes the bank run once due, or at once beside any other reason. |
| `BankTrigger.RedLosesNothing` | scripts/harness/bank_trigger.py:215-245 | A red bank loses nothing: once cleared, stamp and seen digest are those of before it, and the next check names what it would have named. |
| `BankTrigger.SecondCheckHides` | scripts/harness/bank_trigger.py:167-204 | With a second check before the stamp an arrival goes unnamed that one check would have kept named. |
| `BankTrigger.ApprovalsStampedLate` | scripts/harness/bank_trigger.py:201-212 | Approvals and marker are reasons exactly when they changed since the stamp, not since its check. |
| `Findings.ScoreExactly` | scripts/harness/bank_findings.py:391-409 | Which of two findings says more: a FIND over CLOSED over BLOCKED over SKIPPED, then a sidecar, then a settled verify. |
| `Findings.OnePerSlug` | scripts/harness/bank_findings.py:391-409 | Each slug once, in order, with the first of its findings that says the most. |
| `Findings.ReadSlugs` | scripts/harness/bank_findings.py:259-273 | Each slug of a page with its topmost row. |
| `Findings.Insert` | scripts/harness/bank_findings.py:610-626 | The rows stand at the top of the table without the old rows of their slugs; no line outside the table changes. |
| `Findings.PassWrites` | scripts/harness/bank_findings.py:666-696 | A run writes rows of its own findings only, at most one each, and its counts add up. |
| `Findings.PassRows` | scripts/harness/bank_findings.py:357-388 | A measurement is written exactly when the pages as they were did not have it booked. |
| `Findings.ClosedExactly` | scripts/harness/bank_findings.py:357-388 | A finding that is no FIND is written to the closed page if and only if its slug is on neither page, no row that the closed page shows names its artifact, and none written before it in this run does. |
| `Findings.MeasuredExactly` | scripts/harness/bank_findings.py:357-388 | A FIND is written if and only if its slug is on neither page, or is not closed and its topmost register row is a FIND with another figure. |
| `Findings.CountedExactly` | scripts/harness/bank_findings.py:666-696 | Replaced are the FINDs of the second kind, new is what else is written, booked every other finding. |
| `Findings.RowsShow` | scripts/harness/bank_findings.py:666-696 | Each row written shows the slug, figure, verdict and artifacts of a finding of the drain, FINDs on the register and the others on the closed page. |
| `Findings.WrittenInOrder` | scripts/harness/bank_findings.py:666-696 | Rows are written in the order of the findings. |
| `Findings.ClosedAfter` | scripts/harness/bank_findings.py:319-342 | The closed page afterwards has its old slugs and the new, and names every artifact they name. |
| `Findings.SecondWritesNothing` | scripts/harness/bank_findings.py:649-701 | A second run of the same drain writes and counts nothing, when no row is hidden. |
| `Findings.HiddenAgain` | scripts/harness/bank_findings.py:649-701 | A re-measured row above the table is replaced again by a second run. |
| `Findings.Idempotent` | scripts/harness/bank_findings.py:649-701 | Booking twice is booking once if and only if no re-measured slug has its topmost row above the table. |
| `Findings.Scribe.Decide` | scripts/harness/bank_findings.py:652-696 | The loop over the findings computes the pass function over the pages as read. |
| `Findings.ChosenUnique` | scripts/harness/bank_findings.py:391-409 | A drain has one choice of findings, order included. |
| `Findings.Scribe.Book` | scripts/harness/bank_findings.py:637-704 | Both pages become themselves with the pass's rows inserted, for the one choice of the drain; a dry run changes neither. |
| `Findings.Scribe.BookTwice` | scripts/harness/bank_findings.py:637-704 | Booking the same drain twice leaves both pages as booking it once when no re-measured row is hidden, and only then replaces nothing. |
| `Export.ScreenExactly` | scripts/round/extended_export.py:246-277 | A line is kept exactly when it is a capture of a 2xx or 3xx, or of no status where none is required, with a full stamp in the window, whose url has a host that existed then and has a registrable; and it is dropped for a reason exactly when that is the first test it fails. |
| `Export.RefusedExactly` | scripts/round/extended_export.py:204-213 | A journal is refused exactly when its lane is of errors, or a status is required and some capture has none. |
| `Export.LedgerCites` | scripts/round/extended_export.py:214-217 | Each ledger row cites a line of a journal not refused by its numbers, and has the year, host, stamp and flag of the capture there. |
| `Export.ScreenedRows` | scripts/round/extended_export.py:198-222 | A journal that must carry a status is refused whole on the first line without one; else every kept line is a row and the dropped ones are counted by reason. |
| `Export.LinesCounted` | scripts/round/extended_export.py:198-222 | Every line is kept once or dropped for one reason. |
| `Export.KeptRowsClean` | scripts/round/extended_export.py:225-277 | Every character of a row's fields is above the tab. |
| `Export.JoinOrder` | scripts/round/extended_export.py:307-313 | Bytewise order of tab-joined fields is the order of the field tuples. |
| `Export.SortIsRowSort` | scripts/round/extended_export.py:313-323 | Sorted lines are sorted rows, and a line split at its tabs is its row's fields. |
| `Export.FirstIsEarliest` | scripts/round/extended_export.py:315-327 | The first row of a host-year is its earliest capture with a status, else its earliest without. |
| `Export.Dedupe` | scripts/round/extended_export.py:317-336 | Each year's names are its hosts in strict order, each beside the first row of its run, and the rest are counted as duplicates. |
| `Export.MergeJoin` | scripts/round/extended_export.py:350-362 | Each addition finds the row of its own host, and the evidence never runs out. |
| `Export.ExportYear` | scripts/round/extended_export.py:338-362 | The additions are the hosts he does not have, in order, each with one ledger row, its own first; submitted is accepted and held together. |
| `Export.Exported` | scripts/round/extended_export.py:198-362 | From the journals to a year's files: the additions are the hosts some journal dates to the year and he does not have, in order, and each ledger row is a kept line, its host-year's earliest capture over all journals. |

## Left out

- The order in which units are tried (`rank`, `rerank`, prices): any order is allowed, and any choice of the early units.
- The gate: start intervals, pauses, deadlines and the local client cap; how long a back-off lasts. Only the counters are kept.
- Log text other than the rows the rebuild reads, and the `answered` file.
- The done files of other lanes: a lane is modelled with its own; more booked keys at a start only drop more tasks.
- The order of in-flight tasks in `pending.txt`: sorted in the source, any order here.
- A torn append to `done.txt` or `log.tsv`: appends are atomic here.
- Parked slices in coverage: they are an exemption, as are skipped slices and the eight siblings of two probes without a row.
- Journal names: two journals written in the same second for the same page count would share one; names are distinct here.
- `add_questions` beyond its tasks: questions are roots of size 1 that never become pending subpages.
- Text encodings and percent-encoding, Unicode case and digits, gzip and zlib internals, sha256 (the hasher is the bytes fed to it).
- Sockets, DNS, time limits, processes, cron and git: servers, clocks and file systems are parameters that may answer anything the stated honesty allows.
- WalkReopen.WindowKillExact: is for walks that take no page early, as the constant is set; with early pages `RunClean`, `RunCovered` and `EarlyPageRaises` are what is claimed.
- WalkTardy.RestartExact: the kills before are harmless ones; of a log after a harmful kill nothing is claimed.
- WalkJobs.Done: sizes in the log are taken to be positive, as the walker writes them.
- Fetch.Fetch: receipts' other fields, content types beyond one verdict, destinations and symbolic links are not modelled; a failing write to disk is not either.
- RangeFile.RangeFile.Prefetch: three workers fetch in parallel in the source; here block after block, each with its own answers.
- SuffixConvert.Converter.Run: the journals are visited in any order and the output's lines are a map; the year of a stamp is kept as text.
- BankTrigger.Trigger.Check: a file renamed between the listing and its stat counts as gone from its glob for that check; here a listing is of the files that are there.
- Findings: rows are records of slug, figure, verdict and artifact keys; a slug is taken to be rendered as itself (no pipe and no ` / ` in it), and which slug first named an artifact, shown in a message only, is not kept. The prose rules that make the cells are left out.
- Export: prices, the manifest, caching of screened journals and the comparison file's own checks; `comm` is set difference and intersection on sorted names.
- Robots: the file arrives as agent lines and directives; comment stripping, field names and the fetch of the file itself are left out, and a crawl delay that is infinite.
- `charge`, `prices` and `Release` of the walk's order, the typo bound's sampling, DuckDB queries, the `ark` package, reports, rails and guards.
