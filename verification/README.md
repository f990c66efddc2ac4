# Second Brain: pattern analysis, scheduler and thought store in Dafny

This project is a Dafny model of three parts of the Second Brain system, with proofs about each.

- **Pattern Observer** (`second-brain-backend/lib/pattern-observer.ts`). A run does the following:
  - groups a snapshot of the notes by normalised tag over three windows (`last_7_days`, `last_30_days`, `all_time`);
  - keeps each window's recurring themes: at least two notes, most frequent first, at most ten;
  - narrates each theme with a language model, or with a fixed fallback sentence when the model fails;
  - collects the related notes;
  - builds the weekly timeline;
  - stores the insights and finalises the run record as completed or failed.
- **Run scheduler** (`second-brain-backend/lib/scheduler.ts`). A 23-hour gap check against the latest completed run, the timer tick that starts the analysis, and the idempotent `start`/`stop` state.
- **Thought store** (`knowledge-weaver-main/src/lib/thoughtStore.ts`). The browser's list of thoughts:
  - the server/local pin merge;
  - adding, pinning, editing and deleting;
  - the pinned and recent views;
  - tag, type and weekday statistics;
  - the locally generated insight lines.

Modules:

| module | file | contents |
|---|---|---|
| `Wrappers` | `wrappers.dfy` | `Option` and `Result` |
| `Seqs` | `seqs.dfy` | filtering, stable descending sort, tallies and their lemmas |
| `Text` | `text.dfy` | lower-casing, `trim`, tag normalisation, decimal rendering |
| `Clock` | `clock.dfy` | timestamps: day, weekday, start of week, `daysAgo` |
| `ThemeGrouper` | `theme_grouper.dfy` | `groupByTags` |
| `Timeline` | `timeline.dfy` | `buildTimeline` |
| `Narrator` | `narrator.dfy` | model narration and the fallback sentence |
| `PatternObserver` | `pattern_observer.dfy` | period filtering, recurring themes, the insight list |
| `PatternRun` | `pattern_run.dfy` | the run record and the database effects of `runPatternAnalysis` |
| `Scheduler` | `scheduler.dfy` | gap check, tick, start/stop |
| `ThoughtStore` | `thought_store.dfy` | the thought store |

Conventions of the model:

- **Time.** A timestamp is an integer number of milliseconds of local wall-clock time. A day is always 24 hours. Day numbers are floored, and 1970-01-01 was a Thursday.
- **Week keys.** A week is identified by its Sunday-midnight timestamp. The source renders that as a fixed-width `YYYY-MM-DD` key, which sorts in the same order as the integer.
- **Inputs as parameters.**
  - Every clock read is the `now` parameter.
  - The language model is an oracle `Model` that either answers with a text or fails.
  - Each database call that can throw gets its outcome from a `Faults` value: creating the run, reading the notes, inserting the insight at a given position, and the final update.
  - The browser's stored list and the server's answers are values.
- **Points where the code behaves differently from what its comments and names suggest; the model follows the code:**
  - **Window cutoff.** It is local midnight 7 or 30 calendar days before today (`daysAgo`), not exactly 7 or 30 days before `now`.
  - **Skip test.** The all-time skip checks "some insight of another window has this theme". That is the same test as "of an earlier window" only because `all_time` comes last.
  - **Repeated tags.** A note tagged twice with tags that normalise alike is counted twice in its group and listed twice in `noteIds`. Only the related-note list removes the repeat.

## Model

| member | source | states |
|---|---|---|
| Clock.StartOfWeek | second-brain-backend/lib/pattern-observer.ts:38-44 | the week start is a Sunday midnight at or before the instant and less than seven days before it |
| Clock.DaysAgo | second-brain-backend/lib/pattern-observer.ts:50-55 | the cutoff is a midnight, and it lies within the day that is `days` days before `now` |
| Clock.SameWeek | second-brain-backend/lib/pattern-observer.ts:104-105 | every instant of a Sunday-to-Saturday week has that week's start as its own week start |
| Text.Normalize | second-brain-backend/lib/pattern-observer.ts:66 | the normal form is the lower-cased tag with whitespace, and only whitespace, cut from each end; no whitespace is left at either end and no upper-case ASCII letter remains |
| Text.NormalizeIdempotent | second-brain-backend/lib/pattern-observer.ts:66 | normalising a normalised tag changes nothing |
| Text.NormalizeIgnoresCase | second-brain-backend/lib/pattern-observer.ts:66 | tags that differ only in ASCII letter case have the same normal form |
| Text.NormalizeIgnoresPadding | second-brain-backend/lib/pattern-observer.ts:66 | a whitespace character added at either end of a tag does not change its normal form |
| Text.NormalizeFixes | second-brain-backend/lib/pattern-observer.ts:66 | a tag with no upper-case ASCII letter and no whitespace at either end is its own normal form |
| Text.ParseNatToString | second-brain-backend/lib/pattern-observer.ts:215 | the decimal rendering of a count reads back as the same count, so distinct counts render differently |
| ThemeGrouper.GroupByTags | second-brain-backend/lib/pattern-observer.ts:59-90 | the map keeps each key once, its order lists exactly the map's keys, and that order is the order in which the two loops first meet each non-empty normal form |
| ThemeGrouper.AddTagsOrder | second-brain-backend/lib/pattern-observer.ts:65-78 | the inner loop over a note's tags appends to the key order each non-empty normal form not met before, at its first occurrence |
| ThemeGrouper.GroupByTagsCorrect | second-brain-backend/lib/pattern-observer.ts:59-90 | a key has a group exactly when it is non-empty and some tag occurrence normalises to it; the group is built from exactly those occurrences, in visiting order |
| ThemeGrouper.AddTagNew | second-brain-backend/lib/pattern-observer.ts:69-83 | a key not yet present gets the group of that one note: its id and title, count one, both dates the note's creation time |
| ThemeGrouper.AddTagExisting | second-brain-backend/lib/pattern-observer.ts:80-85 | when the key already holds the group of some occurrences, it then holds the group of those occurrences followed by the note; no other key changes |
| ThemeGrouper.AddTagOther | second-brain-backend/lib/pattern-observer.ts:64-67 | a tag that normalises to another key, or to the empty string, leaves this key's group untouched |
| ThemeGrouper.GroupShape | second-brain-backend/lib/pattern-observer.ts:66-85 | each key is the non-empty normal form of some input tag; count equals the number of ids and of titles, at least one; oldest date is at most newest date |
| ThemeGrouper.GroupMembers | second-brain-backend/lib/pattern-observer.ts:81-85 | every listed member is an input note carrying the tag, with the listed title, created within the group's date range |
| Timeline.BuildTimelineCorrect | second-brain-backend/lib/pattern-observer.ts:92-131 | week starts are strictly ascending; each entry holds exactly its week's notes (count, histogram of normalised tags, end six days after start); every note's week has an entry; the totals add up to the number of notes |
| Timeline.BuildTimelineEmpty | second-brain-backend/lib/pattern-observer.ts:95 | the timeline is empty exactly when there are no notes |
| Timeline.BuildTimeline | second-brain-backend/lib/pattern-observer.ts:92-131 | week starts are strictly ascending; a week has an entry exactly when some note falls in it, and that entry summarises exactly those notes; the totals add up to the number of notes |
| Timeline.FoldCorrect | second-brain-backend/lib/pattern-observer.ts:103-121 | after any prefix of the notes, each week has an entry exactly when it holds a note of the prefix, and that entry summarises those notes |
| Timeline.PlaceAscending | second-brain-backend/lib/pattern-observer.ts:107-124 | counting a note keeps the entries in strictly ascending week order |
| Timeline.PlaceTotal | second-brain-backend/lib/pattern-observer.ts:113-114 | counting a note adds exactly one to the sum of the totals |
| Timeline.HistogramStep | second-brain-backend/lib/pattern-observer.ts:116-120 | each non-empty key's count grows by the number of the note's tags that normalise to it; the empty key never appears |
| Timeline.NewEntryStep | second-brain-backend/lib/pattern-observer.ts:107-114 | a fresh week's entry, after counting its first note, summarises exactly that note, with its end six days after its start |
| Timeline.NoteWeekBounds | second-brain-backend/lib/pattern-observer.ts:104 | a note's week start is a Sunday midnight at or before its creation and less than a week before it |
| Narrator.Narrate | second-brain-backend/lib/pattern-observer.ts:192-216 | the model is asked with the theme, the count, at most five titles and the period label; its text is used when it answers, and the fallback sentence when it fails |
| Narrator.Fallback | second-brain-backend/lib/pattern-observer.ts:209-215 | the sentence is `You've written N notes about "theme" phrase.`, with the window's phrase and with N a decimal numeral, without leading zeros, that reads back as the count |
| Narrator.FallbackInjective | second-brain-backend/lib/pattern-observer.ts:209-215 | equal fallback sentences have equal counts, themes and windows |
| PatternObserver.FilterNotesByPeriod | second-brain-backend/lib/pattern-observer.ts:133-140 | all_time keeps the notes unchanged; a shorter window keeps exactly the notes created at or after its cutoff |
| PatternObserver.FilterNotesByPeriodCopies | second-brain-backend/lib/pattern-observer.ts:133-140 | a note kept by the window occurs in the result as often as in the input; any other note does not occur |
| PatternObserver.FilterNotesByPeriodAppend | second-brain-backend/lib/pattern-observer.ts:139 | filtering keeps the original order: it distributes over concatenation |
| PatternObserver.WeekWithinMonth | second-brain-backend/lib/pattern-observer.ts:137-139 | the 7-day window of the 30-day window is the 7-day window |
| PatternObserver.Recurring | second-brain-backend/lib/pattern-observer.ts:179-182 | the result has min(10, number of recurring groups) groups, drawn without repeats from the groups with count at least two, in non-increasing count order; a recurring group left out means more than ten recur, and its count is at most every chosen count |
| PatternObserver.Top | second-brain-backend/lib/pattern-observer.ts:173-182 | a window's chosen themes are the top recurring groups of that window's notes in the sense just stated |
| PatternObserver.AllRecurringKept | second-brain-backend/lib/pattern-observer.ts:173-182 | when at most ten groups of a window recur, every tag met at least twice in the window is among the chosen themes |
| PatternObserver.RelatedNoteIds | second-brain-backend/lib/pattern-observer.ts:218-228 | no id is repeated, and an id is listed exactly when it is a member of the theme or an older note of the snapshot carrying the theme |
| PatternObserver.RelatedMembersFirst | second-brain-backend/lib/pattern-observer.ts:228 | the theme's member ids come first, in order of first occurrence, followed by the old related ids that are not members, in order of first occurrence |
| PatternObserver.AlreadyExistsMeans | second-brain-backend/lib/pattern-observer.ts:186-188 | the skip test holds exactly when some collected insight of another window has the theme |
| PatternObserver.EmitThemesKeeps | second-brain-backend/lib/pattern-observer.ts:184-237 | the theme loop appends one insight per theme it keeps, in theme order |
| PatternObserver.PeriodStep | second-brain-backend/lib/pattern-observer.ts:172-238 | one iteration of the window loop appends the insights of the window's kept recurring themes |
| PatternObserver.CollectInsights | second-brain-backend/lib/pattern-observer.ts:164-238 | the window loop yields at most ten insights per window; CollectIsReference gives the list itself |
| PatternObserver.CollectIsReference | second-brain-backend/lib/pattern-observer.ts:164-238 | the collected list equals the 7-day block, then the 30-day block, then the all-time themes neither produced |
| PatternObserver.CollectOrigin | second-brain-backend/lib/pattern-observer.ts:172-237 | every insight is the narration of one of its window's recurring themes |
| PatternObserver.TopGrounded | second-brain-backend/lib/pattern-observer.ts:173-182 | a recurring theme is the window's group for its tag; its count is the number of occurrences of the tag in the window, at least two |
| PatternObserver.InsightGrounded | second-brain-backend/lib/pattern-observer.ts:172-236 | every insight's count is the number of occurrences of its theme in its window and is at least two |
| PatternObserver.InsightContents | second-brain-backend/lib/pattern-observer.ts:192-236 | every insight's text narrates its group's titles; its related ids are distinct and are the group's members plus the old notes carrying the theme |
| PatternObserver.PeriodsInOrder | second-brain-backend/lib/pattern-observer.ts:164-172 | insights come in window order: last_7_days, then last_30_days, then all_time |
| PatternObserver.CountsDescendWithinPeriod | second-brain-backend/lib/pattern-observer.ts:179-182 | within one window, counts never increase along the list |
| PatternObserver.PeriodSlice | second-brain-backend/lib/pattern-observer.ts:172-237 | the insights of one window, picked out of the list, are exactly that window's block |
| PatternObserver.PerPeriodCap | second-brain-backend/lib/pattern-observer.ts:182 | each window contributes at most ten insights |
| PatternObserver.AllTimeNoRepeat | second-brain-backend/lib/pattern-observer.ts:184-189 | no all_time insight has the theme of a 7-day or 30-day insight |
| PatternObserver.ShortWindowsCovered | second-brain-backend/lib/pattern-observer.ts:184-189 | every recurring theme of the 7-day and of the 30-day window has an insight of that window, so a 30-day repeat of a 7-day theme is kept |
| PatternObserver.AllTimeCovered | second-brain-backend/lib/pattern-observer.ts:184-189 | every recurring all-time theme has some insight: the all_time one, or a shorter window's |
| PatternObserver.RecurringThemesReported | second-brain-backend/lib/pattern-observer.ts:172-189 | when at most ten groups of a window recur, every tag met at least twice in a short window has an insight of that window, and every tag met at least twice overall has some insight |
| PatternObserver.NoNotesNoInsights | second-brain-backend/lib/pattern-observer.ts:172-174 | no notes give no insights |
| PatternObserver.UnavailableModelFallsBack | second-brain-backend/lib/pattern-observer.ts:207-216 | with a model that always fails, every insight's text is the fallback sentence for its own count, theme and window |
| PatternRun.Snapshot | second-brain-backend/lib/pattern-observer.ts:150-153 | the notes are read newest first, as a permutation of the stored notes |
| PatternRun.ErrorText | second-brain-backend/lib/pattern-observer.ts:282 | the recorded error is the thrown message, or a non-empty default when the message is empty |
| PatternRun.Persist | second-brain-backend/lib/pattern-observer.ts:243-287 | the storing phase returns exactly when no insert and not the final update throws; then every insight is stored under the run and the run completed with its counts; otherwise a prefix is stored and the run failed with the error text; notes and other runs are untouched |
| PatternRun.RunPatternAnalysis | second-brain-backend/lib/pattern-observer.ts:144-288 | the notes are never changed; a failed creation changes nothing else; a returned result is the new run, completed over every note, with the collected insights and the timeline of the notes as read |
| PatternRun.PersistShape | second-brain-backend/lib/pattern-observer.ts:243-287 | storing succeeds exactly when no insert and not the final update throws; then all insights are stored and the run completed with its counts, otherwise a prefix is stored and the run failed |
| PatternRun.RunIsPersist | second-brain-backend/lib/pattern-observer.ts:155-161 | once the notes are read, the call is the storing phase over the collected insights, which are none and counted zero when there are no notes |
| PatternRun.RunSucceeds | second-brain-backend/lib/pattern-observer.ts:144-275 | the call returns exactly when no database call throws; it returns the completed result (themesFound = number of insights) and adds the completed run and its stored insights to the database |
| PatternRun.RunFails | second-brain-backend/lib/pattern-observer.ts:276-287 | a failed creation changes nothing; any later throw records a failed run with the error text and time, and leaves a prefix of the insights stored |
| PatternRun.ReadFailure | second-brain-backend/lib/pattern-observer.ts:150-153 | a failed read of the notes fails the run and stores no insight |
| PatternRun.StoreFailure | second-brain-backend/lib/pattern-observer.ts:243-287 | a throw while storing or finalising keeps the insights stored before it and fails the run |
| PatternRun.RunKeepsHistory | second-brain-backend/lib/pattern-observer.ts:144-287 | notes, earlier runs and earlier insights are untouched; at most one run is added, and it is never left running |
| PatternRun.RunLifecycle | second-brain-backend/lib/pattern-observer.ts:146-285 | the new run moves from running to completed or failed; it keeps its id and start, gains a completion time, and has an error exactly when failed |
| PatternRun.RunStoresPrefix | second-brain-backend/lib/pattern-observer.ts:243-255 | the rows added to the insight table are a prefix of the collected insights, under the new run |
| PatternRun.RunConsistent | second-brain-backend/lib/pattern-observer.ts:146-252 | run ids stay positional and every stored insight belongs to an existing run |
| PatternRun.ThemesFoundIsStored | second-brain-backend/lib/pattern-observer.ts:243-266 | a completed run's themesFound is the number of rows stored under it, and those rows are the returned insights in order |
| Scheduler.LatestCompletion | second-brain-backend/lib/scheduler.ts:12-15 | the latest completion time among the finished completed runs, none exactly when no run has finished |
| Scheduler.LookupLastRun | second-brain-backend/lib/scheduler.ts:12-17 | the lookup fails only when the query throws; it finds no run exactly when no completed run has a completion time; otherwise it gives the latest completion time of a completed run |
| Scheduler.ShouldRunAnalysis | second-brain-backend/lib/scheduler.ts:10-25 | a failed lookup says no; no completed run, or one without a completion time, says yes; otherwise yes exactly when 23 hours have elapsed |
| Scheduler.GapCheckMeans | second-brain-backend/lib/scheduler.ts:10-25 | when the lookup succeeds, an analysis is due exactly when every completed run finished at least 23 hours before now |
| Scheduler.ScheduledRun | second-brain-backend/lib/scheduler.ts:27-45 | the analysis runs exactly when the gap check says so; a skipped tick leaves the database as it was; success or failure, the tick returns normally |
| Scheduler.TickRunsIffGapElapsed | second-brain-backend/lib/scheduler.ts:27-45 | a tick starts the analysis exactly when the lookup succeeds and no completed run finished within 23 hours |
| Scheduler.NoSecondRunWithinGap | second-brain-backend/lib/scheduler.ts:5-20 | after a tick whose analysis completed, no tick less than 23 hours later starts another |
| Scheduler.Start | second-brain-backend/lib/scheduler.ts:47-63 | starting when started changes nothing; otherwise the flag is set, the handle kept, and the 10-second and 24-hour timers installed |
| Scheduler.Stop | second-brain-backend/lib/scheduler.ts:65-72 | stopping with a handle clears it and resets the flag; without one, nothing changes |
| Scheduler.StartIdempotent | second-brain-backend/lib/scheduler.ts:48-51 | a second start installs nothing and keeps the state |
| Scheduler.StopUndoesStart | second-brain-backend/lib/scheduler.ts:53-71 | stopping a freshly started scheduler clears the interval it installed and returns to the initial state |
| Scheduler.StopIdempotent | second-brain-backend/lib/scheduler.ts:66 | a second stop clears nothing |
| Scheduler.SingleInterval | second-brain-backend/lib/scheduler.ts:47-72 | after any sequence of starts and stops, the flag is set exactly when a handle is held, and exactly one interval is live while started, none otherwise |
| ThoughtStore.Merge | knowledge-weaver-main/src/lib/thoughtStore.ts:86-89 | each merged thought is the server's copy except for the pin, which is set exactly when the server or the local list has it pinned |
| ThoughtStore.GetAllThoughts | knowledge-weaver-main/src/lib/thoughtStore.ts:82-94 | a missing or empty server answer returns the local list unchanged; otherwise the merge is stored and returned |
| ThoughtStore.MergeIdempotent | knowledge-weaver-main/src/lib/thoughtStore.ts:86-90 | re-reading with the same server answer changes nothing, when the server lists each id once |
| ThoughtStore.MergeKeepsPins | knowledge-weaver-main/src/lib/thoughtStore.ts:88-89 | a thought pinned locally or on the server stays pinned after the merge |
| ThoughtStore.AddThought | knowledge-weaver-main/src/lib/thoughtStore.ts:96-121 | the list grows by one with the returned thought first, unpinned; without a server answer that thought is the draft with the temporary id and time; with one it is the server's copy, which also replaces exactly the entries holding the temporary id |
| ThoughtStore.AddFreshId | knowledge-weaver-main/src/lib/thoughtStore.ts:105-117 | with a temporary id no thought has, the list is the returned thought followed by the old list |
| ThoughtStore.TogglePin | knowledge-weaver-main/src/lib/thoughtStore.ts:123-130 | length and order kept; only the pin can change, and it flips exactly on the thoughts with the id |
| ThoughtStore.TogglePinInvolution | knowledge-weaver-main/src/lib/thoughtStore.ts:123-130 | toggling twice restores the list |
| ThoughtStore.UpdateThought | knowledge-weaver-main/src/lib/thoughtStore.ts:132-139 | other thoughts are unchanged; on the matching thoughts every field present in the patch is overwritten and every absent field kept |
| ThoughtStore.UpdateNothing | knowledge-weaver-main/src/lib/thoughtStore.ts:132-139 | an empty patch changes nothing |
| ThoughtStore.UpdateIdempotent | knowledge-weaver-main/src/lib/thoughtStore.ts:132-139 | applying an update twice is applying it once |
| ThoughtStore.UpdateCompose | knowledge-weaver-main/src/lib/thoughtStore.ts:132-139 | two updates that keep the id are one update with the later patch winning field by field |
| ThoughtStore.DeleteThought | knowledge-weaver-main/src/lib/thoughtStore.ts:141-147 | no thought with the id remains, every other thought remains, and exactly the matching ones are gone |
| ThoughtStore.DeleteSplits | knowledge-weaver-main/src/lib/thoughtStore.ts:143 | deletion keeps the relative order: it works piecewise on a split list |
| ThoughtStore.DeleteAbsent | knowledge-weaver-main/src/lib/thoughtStore.ts:143 | deleting an id the list does not hold changes nothing |
| ThoughtStore.DeleteIdempotent | knowledge-weaver-main/src/lib/thoughtStore.ts:143 | deleting twice is deleting once |
| ThoughtStore.GetPinned | knowledge-weaver-main/src/lib/thoughtStore.ts:149-151 | the view holds exactly the pinned thoughts, each as often as it occurs in the list |
| ThoughtStore.GetPinnedAppend | knowledge-weaver-main/src/lib/thoughtStore.ts:149-151 | the view keeps list order: the view of a concatenation is the concatenation of the views, and a single thought is kept exactly when it is pinned |
| ThoughtStore.PinnedAfterDelete | knowledge-weaver-main/src/lib/thoughtStore.ts:141-151 | the pinned view after a deletion is the pinned view with the deletion applied |
| ThoughtStore.PinnedAfterToggle | knowledge-weaver-main/src/lib/thoughtStore.ts:123-151 | after a toggle a thought is in the pinned view exactly when its pin and its being toggled differ |
| ThoughtStore.SliceEnd | knowledge-weaver-main/src/lib/thoughtStore.ts:156 | the end index of `slice(0, count)`: clamped to the length, and counted from the end when negative |
| ThoughtStore.GetRecent | knowledge-weaver-main/src/lib/thoughtStore.ts:153-157 | the result is newest first, has the length `slice` gives, and is drawn from the list without repeats beyond it |
| ThoughtStore.RecentAreNewest | knowledge-weaver-main/src/lib/thoughtStore.ts:153-157 | a thought left out is no newer than any thought returned |
| ThoughtStore.GetTagStats | knowledge-weaver-main/src/lib/thoughtStore.ts:159-168 | one entry per distinct raw tag, each with its number of occurrences, in non-increasing count order, summing to the number of tag occurrences |
| ThoughtStore.GetTypeStats | knowledge-weaver-main/src/lib/thoughtStore.ts:170-178 | one entry per type present, each with its number of thoughts, summing to the number of thoughts |
| ThoughtStore.TypeStatsOrder | knowledge-weaver-main/src/lib/thoughtStore.ts:170-178 | the types are listed in the order in which their first thought appears in the list, as the insertion order of the counter object gives them |
| ThoughtStore.GetActivityByDay | knowledge-weaver-main/src/lib/thoughtStore.ts:180-190 | seven entries named Sun to Sat in that order, summing to the number of thoughts |
| ThoughtStore.ActivityCountsDays | knowledge-weaver-main/src/lib/thoughtStore.ts:185-188 | each day's count is the number of thoughts created on that weekday |
| ThoughtStore.BalanceLine | knowledge-weaver-main/src/lib/thoughtStore.ts:216-226 | for each of the three balance lines, and for no line, the exact condition on the note, link and insight counts |
| ThoughtStore.GenerateLocalInsights | knowledge-weaver-main/src/lib/thoughtStore.ts:192-238 | an empty store gives only the invitation line; otherwise the total line comes first and there are at most five lines |
| ThoughtStore.InsightLines | knowledge-weaver-main/src/lib/thoughtStore.ts:192-238 | the number of lines is one plus one for each of: some thought tagged, some pinned, an unbalanced type mix, some thought less than a week old |
| ThoughtStore.TagLinePresent | knowledge-weaver-main/src/lib/thoughtStore.ts:204-207 | there are tag statistics exactly when some thought has a tag |
| ThoughtStore.PinnedLinePresent | knowledge-weaver-main/src/lib/thoughtStore.ts:210-213 | the pinned view is non-empty exactly when some thought is pinned |
| ThoughtStore.RecentLinePresent | knowledge-weaver-main/src/lib/thoughtStore.ts:229-235 | some thought counts as this week's exactly when one was created less than a week before now |

## Left out

- PatternRun.Snapshot: notes with equal creation times are read in stored order, because the model's sort is stable, whereas `orderBy: { createdAt: 'desc' }` leaves their order to the database. That order decides the order of group keys, and through it which equally frequent themes make the top ten, the five titles sent to the model and the order of related ids.
- Time zones and daylight saving. Local time is a fixed offset from the timestamps, and every day is 24 hours long.
- Invalid `createdAt` strings. They parse to NaN dates in the source; here every creation time is an integer.
- `toISOString` rendering of week keys. The source renders a local midnight as a UTC date; weeks are compared here as timestamps.
- The pre-sort of the notes by creation time in `buildTimeline`. The entries, their counts and their order do not depend on it. It only affects the key order inside each histogram object, and histograms are maps here.
- Lower-casing. Only ASCII letters are lower-cased; the full Unicode case mapping of `toLowerCase` is not modelled.
- The language-model providers, the prompt text and the trimming of the answer. The model is an oracle whose answer is used as given.
- A throw from the failure update in the catch block. The model assumes that update succeeds.
- Run ids. They are positions in the run table instead of generated strings.
- Start times. One `now` serves as the run's start, its completion and both cutoff computations.
- Concurrency and timers. Overlapping runs and the timer callbacks themselves are not modelled. `start` records the timeout and the interval it installs, and only the interval is tracked as live.
- Scheduler.SingleInterval: counts intervals only. The 10-second startup timeout keeps no handle, so `stop` never clears it (scheduler.ts:57-59, 65-72). A start, stop and start within ten seconds therefore leaves two startup ticks pending; the model does not track pending timeouts.
- Logging. The scheduler's console output is left out.
- Scheduler.LookupLastRun: a completed run without a completion time is ignored. Where such a row would sort under `orderBy: completedAt desc` depends on the database.
- The query routes and the HTTP layer.
- Browser storage and the network. They are replaced by the stored list and the server's answers as parameters.
- The re-read of local storage between the two awaits of `addThought`. The model assumes no other write intervenes.
- The defaults `apiGet` fills in: `pinned` false and `createdAt` now. Server thoughts arrive complete.
- The fire-and-forget `apiDelete` call. It does not affect the returned list.
- Patches that set a field explicitly to `undefined`. A patch field is either present with a value or absent.
- Timeline.BuildTimeline: the histogram is a map here, while the source counts into a plain `{}` object. Because tags are lower-cased first, only two inherited names can collide. A tag normalising to "__proto__" is dropped there, because assigning a number to it is ignored. A tag normalising to "constructor" starts from the inherited function and produces a string count.
- Timeline.BuildTimelineCorrect: its histogram counts differ from the source's for tags that normalise to "__proto__" or "constructor", for the reason given under Timeline.BuildTimeline.
- Timeline.FoldCorrect: same prototype-key caveat as Timeline.BuildTimeline.
- Timeline.HistogramStep: same prototype-key caveat as Timeline.BuildTimeline.
- Timeline.NewEntryStep: same prototype-key caveat as Timeline.BuildTimeline.
- ThoughtStore.GetTagStats: counts into a map, while the source counts raw tags into a plain `{}` object. A "__proto__" tag is dropped there. "constructor", "toString", "valueOf", "hasOwnProperty" and the other inherited `Object.prototype` names start from a function and yield string counts, which also upset the sort.
- ThoughtStore.InsightLines: the tag line is counted as present whenever some thought has a tag. In the source a store whose only tag is "__proto__" gets no tag line.
- ThoughtStore.TagLinePresent: tag statistics are non-empty whenever some thought has a tag. In the source a store whose only tag is "__proto__" has none.
- PatternObserver.FilterNotesByPeriod: its own contract states membership only. That a window neither drops nor repeats a note is proved for every input by PatternObserver.FilterNotesByPeriodCopies. It is not an ensures of the function because every proof that unfolds the period loop would then carry it.
- Tag statistics ties. Ties keep first-seen order here, whereas `Object.entries` puts integer-like keys first in numeric order.
- Scheduler.Start and Scheduler.Stop: their contracts spell out the resulting state. The properties proved of them are in StartIdempotent, StopUndoesStart, StopIdempotent and SingleInterval.
