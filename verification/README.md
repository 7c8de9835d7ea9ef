# Court transcription service: verified model

The service turns courtroom recordings into speaker-labelled transcripts. A Go API puts jobs into a
PostgreSQL table; Python workers lease them, transcribe, diarize, attribute words to speakers and
reconstruct the turns of judge and counsel; a Go dispatcher delivers results to webhooks. This project
models the stateful and branching parts of that service and proves what they promise, for all inputs
and for all interleavings. `dafny verify dfyconfig.toml` checks it.

Times are whole milliseconds (the code rounds seconds to three decimals), speakers are the numbers of
the `SPEAKER_nn` labels. Where the code updates an object or an array in place, the model does: the two
tables are classes, the sweeps over words work on arrays, and every loop is a method proved equal to a
specification function. The results are then lemmas about those functions. The modules named Laws say what
the passes do, in words of their own: which words move, who a segment belongs to, where it is cut.

| part | files |
|---|---|
| job queue: one row function per SQL statement, the table, all interleavings | `JobQueue`, `QueueRuns` |
| webhook ledger and dispatchers | `Webhooks` |
| windows, speaker map and stitching of chunked diarization | `WindowPlan`, `SpeakerMap`, `Timeline`, `SpeakerNumbers` |
| cleaning turns, attributing words, honorific pairs, segments | `TurnMerging`, `WordAttribution`, `HonorificPairs`, `WordSegments` |
| token merging, slashes, phrases | `Blocks`, `NumberLetters`, `SlashMerging`, `PhraseRules`, `NormalizedSegment` |
| splitting one segment into speaker runs, and what that does | `SpeakerRuns`, `JitterSmoothing`; `IsolationLaws`, `JitterLaws` |
| regrouping, roles, passes 1C, 1, 1B, 1E, 1D, 2, consolidation, renumbering | `Regrouping`, `RoleDiscovery`, `FormulaSplit`, `RolePasses`, `BoundaryHealing`, `SandwichTrim`, `Consolidation`, `CourtTurns` |
| what each of these passes does, said without the functions that do it, and the whole of stage 2 | `CutLaws`, `AlternationLaws`, `HealingLaws`, `TrimmingLaws`, `StitchingLaws`, `CourtLaws` |
| shared vocabulary, and the texts of the code that meet its conditions | `Options`, `Words`, `Segments`, `Chronology`, `Sequences`, `Shares`, `Texts`, `CourtVocabulary`, `NumberTexts`, `SlashTexts` |

The tests on texts (word lists and regular expressions) are function-valued fields of records such as
`Lexicon`, so the results hold whatever those lists contain. A few results need a fact about them:
`SoundFormulas` and `SoundSpelling` (shown for the formulas and the cleaning of the code by
`CourtVocabulary.CourtIsSound`), `SoundNumbers` (a letter, a rate noun and a merged token such as 5A are
not numbers; shown by `NumberTexts.CourtNumbersSound`), `SoundSlashes` (formatting a slashed token does
not put a slash at its end; shown by `SlashTexts.CourtSlashesSound`), `Apart` (no word both leads and
ends a title; shown by `HonorificPairs.CourtTitlesApart`), `SoundPhrases` (rules are not empty, shares of
a time are rounded monotonically with exact ends; shown for rounding to the nearest millisecond by
`PhraseRules.NearestIsSound`) and `PositiveWeights` (a turn's length to the power 0.15 is positive).

## Where the code does not do what is said of it

- Five delivery attempts: `attempt` is read but never written, so a failing endpoint is posted to any
  number of times (`Webhooks.AttemptsUnbounded`). The posts of a row are bounded exactly when it was
  acknowledged or its sender is lost (`Webhooks.PostsBoundedIff`); in the second case it stays
  `delivering` for ever (`Webhooks.ClaimedRowMovesIffServed`).
- Final statuses: completing, failing and re-queueing do not look at the status they overwrite, so a
  cancelled job can end up completed (`QueueRuns.CancelledCompletes`). A terminal status is final exactly
  when no slot still holds the job and the start-up recovery does not apply to it
  (`QueueRuns.TerminalIsFinal`).
- One execution at a time: a heartbeat between a lease and the active-set update puts the job back in
  the queue while its slot goes on (`QueueRuns.RaceRunsJobTwice`). A job has one executor at a time
  throughout a run exactly when the watchdog, a heartbeat or the start-up recovery never re-queues it
  while a slot holds it (`QueueRuns.OneExecutorIff`); each such recovery admits one more executor and no
  more (`QueueRuns.ExecutorsBounded`).
- New speaker numbers of a chunk are taken from a count. Two of its speakers can share a label exactly
  when one of the next numbers is in use already (`SpeakerMap.MapInjectiveIff`), which three chunks of
  the default plan are enough for (`SpeakerNumbers.TwoSpeakersOneLabel`). A number is skipped when a stitch
  cuts a speaker out, and also when nobody is cut out: a speaker matched earlier in its chunk counts, too
  (`SpeakerNumbers.MatchedCounts`). With nobody cut out, speakers stay numbered without gaps, and so apart,
  exactly when in every chunk the speakers that join come first (`SpeakerNumbers.DenseThroughoutIff`,
  `SpeakerNumbers.ApartThroughout`).
- Window length: only the last window is sure to be two overlaps and 15 s long. Every later window is
  exactly when a chunk is that long or the recording fits into two windows
  (`WindowPlan.LaterWindowsLongIff`, with `WindowPlan.ShortMiddleWindow` a plan for which it is not so), as
  it is in the four settings in use (`WindowPlan.SettingsInUse`).
  Chunks under a minute leave gaps (`WindowPlan.PlanCoversIff`).
- A word's label is not always its run's label after a segment is split: it differs exactly when some
  smoothing pass absorbs two neighbouring runs (`JitterSmoothing.SplitLabels`,
  `JitterSmoothing.LabelsCanDiffer`).
- "The Judge never says My Lord": after pass 2 a segment of judge or counsel that addresses the bench
  belongs to the judge exactly when a request for clarification comes next, or a submission if the address
  is found only once edge punctuation is stripped (`RolePasses.OwnAddressGivenToJudge`,
  `RolePasses.JudgeSaysMyLord`).
- A rewritten phrase is stretched to 50 ms, so words can come to overlap
  (`PhraseRules.QuickWritOverlaps`); they do not exactly when every rewritten phrase, so padded, ends
  before the next word (`PhraseRules.NoOverlapIff`).

## Model

| member | source | states |
|---|---|---|
| JobQueue.JobStore.CreateJob | internal/repository/job_repository.go:37-97 | a repeated idempotency key returns a row that has it and leaves the table alone; otherwise one row is appended that waits, with the given key, cap and callback, created now, and with no worker, retries, result or completion time |
| JobQueue.JobStore.Dequeue | ml_worker/db.py:73-115 | leases a queued, unlocked row that no other such row precedes in the lane's order, and changes no other row; nothing only if there is none |
| JobQueue.JobStore.UpdateProgress | ml_worker/db.py:140-158 | refreshes the heartbeat only for the worker that owns the row |
| JobQueue.JobStore.CompleteJob | ml_worker/db.py:160-211 | completes the row whatever its status, and with a callback adds its delivery in the same transaction |
| JobQueue.JobStore.RequeueJob | ml_worker/db.py:213-247 | re-queues and charges one retry exactly when the cap of at least three is not reached |
| JobQueue.JobStore.FailJob | ml_worker/db.py:249-294 | the row, whatever its status, is failed and terminal as of now and can no longer be cancelled; whether start-up recovery will apply to it is decided here; its retries and other columns and all other rows stay; a callback adds its failure delivery |
| JobQueue.JobStore.CancelJob | internal/repository/job_repository.go:159-170 | cancels pending, queued and processing rows only, and says whether it did |
| JobQueue.JobStore.RecoverStaleJobs | internal/repository/job_repository.go:218-257 | afterwards no row is stale; each stale row with retries left waits again without a worker and is charged one retry, every other stale row is failed as of now uncharged, and the rest are untouched |
| JobQueue.JobStore.SendHeartbeat | ml_worker/db.py:335-374 | afterwards the rows this worker has in process are the ones it says it is working on; live rows get a new heartbeat and nothing else, its other processing rows wait again uncharged, all others are untouched |
| JobQueue.JobStore.RecoverDurationLimited | ml_worker/db.py:26-51 | failed rows of the last day that hit the old duration limit wait again, uncharged; afterwards none is left to recover, and the rest are untouched |
| QueueRuns.StepKeepsInv | ml_worker/worker.py:230-326 | every step of every actor keeps the queue invariant |
| QueueRuns.ReachableInv | ml_worker/db.py:73-374 | in every reachable table: queued rows have no worker and no heartbeat, processing rows have both, completed rows have a result, terminal rows a completion time, and a completed row with a callback its delivery row |
| QueueRuns.LeaseLedger | ml_worker/db.py:213-247 | leases, plus one if waiting, are at most one plus charged retries plus uncharged re-queues; retries never exceed the cap |
| QueueRuns.ExecutorsBounded | ml_worker/worker.py:239-248 | slots that hold a job, plus one if it waits, are at most one plus the times it was re-queued by others while a slot held it |
| QueueRuns.StepExclusiveIff | ml_worker/worker.py:239-248 | a step keeps a job that has one executor at most, and none while it waits, that way if and only if it does not re-queue the job while a slot holds it |
| QueueRuns.OneExecutorIff | ml_worker/worker.py:239-248 | over any run of the system a job has one executor at a time throughout if and only if no step re-queues it while a slot holds it |
| QueueRuns.BypassGoesToOlder | ml_worker/db.py:73-115 | the only step by which the FIFO lane passes a waiting job over leases a job at least as old |
| QueueRuns.BypassesBounded | ml_worker/db.py:73-115 | along any run a job is passed over at most as often as the older jobs may be leased: one plus their retry cap plus their uncharged re-queues each |
| QueueRuns.RunKeepsRow | ml_worker/db.py:140-374 | over any run a row keeps key, age, callback and limit, its retries never fall and its result is never lost |
| QueueRuns.ResubmissionFindsSameJob | internal/repository/job_repository.go:37-97 | at any later point of any run, submitting a key again finds the same job and changes nothing |
| QueueRuns.SubmittedKeyFindsJob | internal/repository/job_repository.go:37-97 | once any submission was made under a key, the key finds, in every continuation, the very job that submission returned or made |
| QueueRuns.ZombieOverwrites | ml_worker/db.py:160-211 | a slot that still holds a terminal job can change its status |
| QueueRuns.TerminalIsFinal | ml_worker/db.py:160-294 | a terminal status is final in every continuation if and only if no slot holds the job and duration recovery does not apply |
| QueueRuns.CancelledCompletes | ml_worker/db.py:160-211 | create, dequeue, start, cancel, complete: a cancelled job ends up completed |
| QueueRuns.RaceRunsJobTwice | ml_worker/worker.py:239-248 | a run with one heartbeat at the wrong moment ends with two slots running one job |
| QueueRuns.Perform | ml_worker/db.py:26-374 | every step performed by the statements of the table leaves exactly the rows and deliveries the step says; only the choice among jobs that tie is the table's own |
| Webhooks.WebhookStore.GetPendingWebhooks | internal/repository/job_repository.go:270-300 | claims exactly the oldest due unlocked rows, at most the limit, and marks them as being delivered |
| Webhooks.WebhookStore.RecordOutcome | internal/webhook/dispatcher.go:63-112 | success is recorded, a failure is retried after two to the attempt seconds or given up |
| Webhooks.BackoffDoubles | internal/webhook/dispatcher.go:97-112 | the wait after a failure starts at two seconds and doubles with every attempt |
| Webhooks.Perform | internal/webhook/dispatcher.go:51-112 | every step performed by the statements of the store leaves exactly the deliveries the step says |
| Webhooks.RunKeepsInv | internal/webhook/dispatcher.go:51-112 | every run keeps the ledger invariant: one live sender a row, only while delivering, success only after a 2xx, nothing given up |
| Webhooks.OneSenderPerRow | internal/repository/job_repository.go:270-300 | two live senders never work on one row, a live sender's row is being delivered, and success means a 2xx was seen |
| Webhooks.NoRedelivery | internal/webhook/dispatcher.go:63-95 | once a row was acknowledged no continuation, with any crashes and lost updates, posts it again |
| Webhooks.ClaimedRowMovesIffServed | internal/webhook/dispatcher.go:51-95 | a row being delivered can ever change status if and only if it has a live sender |
| Webhooks.AttemptsUnbounded | internal/repository/job_repository.go:302-316 | for every n some run from an empty table posts one row n times and leaves it waiting |
| Webhooks.PostsBoundedIff | internal/webhook/dispatcher.go:51-112 | in every state, the posts of a row are bounded over all continuations if and only if it was acknowledged or is being delivered with no live sender, and then it is never posted again |
| WindowPlan.PlanWindows | ml_worker/diarizer.py:274-299 | the loop ends for every total, chunk and overlap, and yields exactly `Plan`, the recursive plan the next rows are about |
| WindowPlan.PlanIsContiguous | ml_worker/diarizer.py:284-299 | windows start at zero, leave no gap, end exactly at the total, and each is shorter than a chunk, an overlap and 15 s |
| WindowPlan.PlanCovers | ml_worker/diarizer.py:284-299 | every instant of the recording lies in a window |
| WindowPlan.PlanCoversIff | ml_worker/diarizer.py:274-299 | the plan covers the recording if and only if chunks last a minute or the first window takes in everything |
| WindowPlan.NeighboursShareOverlap | ml_worker/diarizer.py:284-299 | with a minute left between overlaps, neighbours share exactly the overlap and the stitch point lies in both; every window but the last is exactly a chunk long, the last of several at least two overlaps and 15 s |
| WindowPlan.LaterWindowsLongIff | ml_worker/diarizer.py:284-299 | all windows behind the first are two overlaps and 15 s long if and only if a chunk is, or the recording is shorter than two chunks and 15 s |
| WindowPlan.ShortMiddleWindow | ml_worker/diarizer.py:284-299 | a setting nobody passes, ten minutes in chunks of three with an overlap of two: a window of 180 s where 255 s are promised |
| WindowPlan.SettingsInUse | ml_worker/diarizer.py:532-576 | in the four settings the callers pass, every window behind the first is two overlaps and 15 s long, whatever the recording |
| SpeakerMap.BuildSpeakerMap | ml_worker/diarizer.py:409-455 | the nested loops yield exactly `MapSpeakers`, each speaker taking its best unused match or the next number |
| SpeakerMap.Best | ml_worker/diarizer.py:414-441 | the winner is an unused global speaker with a score no unused one exceeds |
| SpeakerMap.MatchedOrNew | ml_worker/diarizer.py:409-455 | each local speaker in turn is given the best of the speakers that are still free and score at least 0.45, the first of equals, which is then taken; if there is none, a number counted on from the known speakers |
| SpeakerMap.LabelsDiffer | ml_worker/diarizer.py:443-455 | with the next numbers free, different local speakers get different labels, each one in use or a new number |
| SpeakerMap.MapInjectiveIff | ml_worker/diarizer.py:451-455 | for all scores the labels are different if and only if there is one speaker or the next numbers are free |
| Timeline.StitchChunks | ml_worker/diarizer.py:373-482 | the loops over chunks and turns yield exactly `TimelineOf`, whose meaning the next rows state |
| Timeline.StitchedSpeaks | ml_worker/diarizer.py:457-480 | one stitch, instant by instant: the old speakers before the stitch time, the chunk's mapped speakers from it on |
| Timeline.OwnerIsLastTaker | ml_worker/diarizer.py:398-480 | an instant is owned by the last chunk with turns that opened the timeline or was stitched at or before it |
| Timeline.TimelineSpeaks | ml_worker/diarizer.py:373-482 | after any number of chunks who speaks at an instant is exactly what its owning chunk says |
| Timeline.ChunksStayInOrder | ml_worker/diarizer.py:457-480 | turns of an earlier chunk end before turns of a later chunk start, and every turn has positive length |
| Timeline.SpeakersStayApart | ml_worker/diarizer.py:443-480 | two speakers of a chunk stay two on the timeline if the next numbers are free |
| SpeakerNumbers.ThreeChunksOfPlan | ml_worker/diarizer.py:284-299 | the chunks of the next rows come from the default plan of a recording: their turns lie in its windows and they are stitched in the middle of the overlaps |
| SpeakerNumbers.NumberSkipped | ml_worker/diarizer.py:451-480 | two chunks of that plan after which the timeline has two speakers, 0 and 2 |
| SpeakerNumbers.TwoSpeakersOneLabel | ml_worker/diarizer.py:443-455 | a third chunk of that plan both of whose speakers are then labelled 2 |
| SpeakerNumbers.MatchedCounts | ml_worker/diarizer.py:451-455 | two chunks of the default plan that cut nobody out and skip number 1 all the same |
| SpeakerNumbers.StitchStaysDense | ml_worker/diarizer.py:443-480 | if a stitch cuts nobody out, speakers 0 to n-1 become 0 to m-1 if and only if the chunk's speakers that join precede its others |
| SpeakerNumbers.DenseThroughoutIff | ml_worker/diarizer.py:373-482 | over any number of chunks that cut nobody out, speakers are numbered without gaps throughout if and only if the first chunk numbers its own so and in every later one those that join come first |
| SpeakerNumbers.ApartThroughout | ml_worker/diarizer.py:443-480 | and then different speakers of every chunk have different labels |
| TurnMerging.MergeTurns | ml_worker/diarizer.py:942-955 | the loop that extends the last turn yields exactly `Merged` |
| TurnMerging.MergedLeavesNone | ml_worker/diarizer.py:942-955 | between any two neighbours of the result the speaker changes or the pause is longer; order and positive lengths are kept |
| TurnMerging.MergedCovers | ml_worker/diarizer.py:942-955 | a speaker is heard wherever one of their turns was, and elsewhere only within the pause after one |
| TurnMerging.CleanTurns | ml_worker/diarizer.py:940-967 | sort, merge and rename yield exactly `Cleaned` |
| TurnMerging.ConsolidateFragments | ml_worker/diarizer.py:789-898 | turns are consolidated if several speakers are heard, otherwise returned as they are |
| TurnMerging.CleanedTwice | ml_worker/diarizer.py:940-967 | cleaning cleaned turns with the same or a shorter pause changes nothing: sort, merge and rename find nothing to do |
| TurnMerging.ConsolidatedStays | ml_worker/diarizer.py:861-898 | consolidated turns of several speakers have no pause of 0.4 s or less left between two turns of one speaker; they pass unchanged through a second consolidation and through the clean-up before attribution |
| WordAttribution.ChooseSpeakers | ml_worker/diarizer.py:997-1045 | the in-place sweep gives every word its own choice, which the next rows pin down |
| WordAttribution.FillSpeakers | ml_worker/diarizer.py:1047-1053 | the in-place sweep continues the last known speaker |
| WordAttribution.BestTurnIsFirstBest | ml_worker/diarizer.py:1006-1026 | a turn is found if and only if one overlaps, and it is the first that suits best: by cross-multiplication, no other overlap relative to the weight of its turn's length is larger |
| WordAttribution.OverlapIsCommonTime | ml_worker/diarizer.py:1006-1019 | the overlap of word and turn is the number of milliseconds that lie in both |
| WordAttribution.ShorterTurnWins | ml_worker/diarizer.py:1009-1026 | for weights that grow with length: of two turns that overlap a word equally, the longer is never chosen |
| WordAttribution.NearestTurnIsFirstNearest | ml_worker/diarizer.py:1028-1040 | the turn found is the first of the nearest |
| WordAttribution.DistanceIsLeast | ml_worker/diarizer.py:1028-1040 | the distance to a turn that does not overlap is the least between an instant of the word and one of the turn |
| WordAttribution.AttributionIsOptimal | ml_worker/diarizer.py:997-1053 | an overlapped word goes to the first best turn, a word within 0.85 s to the first nearest, any other to the speaker of the word before or the first heard |
| HonorificPairs.CourtTitlesApart | ml_worker/diarizer.py:1058-1059 | no word of the lead set is in the trail set |
| HonorificPairs.JoinTitles | ml_worker/diarizer.py:1061-1073 | the sweep that rewrites words it will read next leaves exactly `Swept`, the pairs handled from left to right |
| HonorificPairs.SweptExactly | ml_worker/diarizer.py:1061-1073 | though it overwrites words it still reads, each word ends with the pair's speaker as of before the sweep, or its own |
| HonorificPairs.TitlesStayTogether | ml_worker/diarizer.py:1061-1073 | both words of every qualifying pair end with one speaker and words outside pairs are untouched |
| HonorificPairs.TitleHasOneSpeaker | ml_worker/diarizer.py:1058-1073 | both words of a title at most 0.35 s apart end with the speaker of the first, or of the second if only that one was attributed directly; other words keep their speakers |
| HonorificPairs.JoinedTwice | ml_worker/diarizer.py:1061-1073 | a second sweep changes nothing |
| HonorificPairs.NumberSpeakers | ml_worker/diarizer.py:1075-1085 | the array ends as `Numbered`: each label replaced by its position among first appearances |
| HonorificPairs.NumberedByFirstWord | ml_worker/diarizer.py:1075-1085 | a one-to-one renaming onto 0 to n-1 in which a speaker's number is how many were heard before |
| WordSegments.GroupWords | ml_worker/diarizer.py:1087-1136 | the loop with its open group yields exactly `Grouped` |
| WordSegments.GroupedIsSegmentation | ml_worker/diarizer.py:1087-1136 | groups concatenate to the words, no word inside a group should have split it, and every cut is justified |
| WordSegments.GroupedInUtterances | ml_worker/diarizer.py:1103-1136 | in a group every word goes on with those before it, and no group goes on with the one before: one speaker, a pause under 1.2 s, under 20 s in all, and after a sentence end under 0.4 s and under 6 s |
| WordSegments.SegmentationUnique | ml_worker/diarizer.py:1087-1136 | no other partition has these properties |
| WordSegments.GroupIsOneUtterance | ml_worker/diarizer.py:1103-1113 | a group has one speaker, pauses under 1.2 s and spans under 20 s |
| WordSegments.CountIsExact | ml_worker/diarizer.py:1138-1140 | the speakers counted over segments are the speakers of the words |
| WordSegments.PairsShareSpeaker | ml_worker/diarizer.py:1055-1085 | in the final labels both words of every qualifying pair have one speaker |
| WordSegments.AssignSpeakers | ml_worker/diarizer.py:900-1140 | the methods in sequence yield `Assigned`: nothing for no segments, every segment and word SPEAKER_00 without valid turns, the segments untouched when nothing is said, else the grouped words and the speaker count |
| WordSegments.EvenWordsTile | ml_worker/diarizer.py:969-992 | words made for a text have its tokens in order and tile its time, at least 100 ms, without gap or overlap |
| WordSegments.AssignmentKeepsWords | ml_worker/diarizer.py:900-1140 | with the turns cleaned across pauses of 0.3 s, segments hold exactly the words that came in, or were made for texts without words, with their times, in the one possible partition into utterances; each has its words' speaker, times and texts, the first is SPEAKER_00, and the count is exact |
| NumberLetters.MergeNumberLetters | ml_worker/normalizer.py:827-888 | the index loop, which looks up to two words ahead, yields exactly `Merged` |
| NumberLetters.MergedEnvelops | ml_worker/normalizer.py:827-888 | tokens stand for consecutive blocks, from first start to last end |
| NumberLetters.NothingNewMerges | ml_worker/normalizer.py:848-866 | no mergeable pair is left in front, the rate-noun exception included |
| NumberLetters.MergedReads | ml_worker/normalizer.py:840-888 | every token is a word or a number joined with the letter after it, and no letter is left behind a number it belongs to |
| NumberLetters.MergedTwice | ml_worker/normalizer.py:827-888 | a second pass returns the same tokens |
| SlashMerging.MergeSlashed | ml_worker/normalizer.py:891-975 | the two nested index loops yield exactly `Merged`, one token per run of words around slashes |
| SlashMerging.MergedEnvelops | ml_worker/normalizer.py:891-975 | tokens stand for consecutive blocks, from first start to last end |
| SlashMerging.OnlyLastEndsInSlash | ml_worker/normalizer.py:891-975 | after one pass only the last token can end in a slash |
| SlashMerging.MergedTwice | ml_worker/normalizer.py:891-975 | so a second pass returns the same tokens |
| PhraseRules.NormalizeStream | ml_worker/normalizer.py:1028-1083 | the loops over words and rules yield exactly `Stream`: at each place the first matching rule, else the word |
| PhraseRules.NoEarlierMatch | ml_worker/normalizer.py:1041-1054 | the rule applied is the first that matches |
| PhraseRules.FrontIsRewritten | ml_worker/normalizer.py:1036-1083 | at every place the first rule whose tokens the words begin with, no pause over 1.5 s inside, is applied: the rule's texts, the last with the ending of the last word, replace as many words as it has tokens; without one a word stays |
| PhraseRules.RewrittenTiles | ml_worker/normalizer.py:1055-1077 | new words tile the phrase's time exactly, padded to 50 ms, under one speaker |
| PhraseRules.NoOverlapIff | ml_worker/normalizer.py:1028-1083 | a stream without overlaps stays so if and only if every rewritten phrase, padded, ends before the next word |
| PhraseRules.QuickWritOverlaps | ml_worker/normalizer.py:1023-1071 | "start the writ" in 20 ms, stretched to 50 ms, runs into the word behind it |
| PhraseRules.LongPhrasesFit | ml_worker/normalizer.py:1055-1059 | which is the case when every matched phrase lasts 50 ms |
| PhraseRules.StreamEnds | ml_worker/normalizer.py:1028-1083 | the stream ends no earlier than before, and exactly then when phrases last 50 ms |
| PhraseRules.NearestIsSound | ml_worker/normalizer.py:1055-1071 | a table without empty rules and rounding to the nearest millisecond satisfy what rewriting phrases asks of them |
| NormalizedSegment.NormalizeWords | ml_worker/normalizer.py:1086-1108 | the four loops in sequence yield `Normalized` |
| NormalizedSegment.NormalizedKeepsTime | ml_worker/normalizer.py:1086-1108 | normalizing keeps the start of a segment, always, its end or a later one, exactly if phrases last 50 ms, and its one speaker; words that did not overlap still do not if and only if phrases fit |
| Blocks.EnvelopedNoOverlap | ml_worker/normalizer.py:827-975 | merging blocks never makes words overlap |
| SpeakerRuns.FindSnap | ml_worker/pipeline.py:331-343 | finds the nearest boundary one to six words back with no sentence end in between, if there is one |
| SpeakerRuns.PreSnap | ml_worker/pipeline.py:327-346 | the in-place sweep leaves each word as if all changes had been judged on the original labels |
| SpeakerRuns.SnapIsLocal | ml_worker/pipeline.py:327-346 | a word keeps its label or takes that of a mid-sentence change at most six words on, behind a boundary; the last word keeps its label |
| SpeakerRuns.DrawnByTheLast | ml_worker/pipeline.py:327-346 | a word gets the label of the last mid-sentence change that draws it, otherwise it keeps its own: a change draws the words behind the nearest sentence or formula end one to six words back with no sentence end in between |
| SpeakerRuns.GroupRuns | ml_worker/pipeline.py:348-355 | the loop yields `Grouped`, the one sequence of maximal runs |
| SpeakerRuns.GroupedIsRunsOf | ml_worker/pipeline.py:348-355 | runs are maximal, uniform, non-empty and hold the words in order |
| SpeakerRuns.RunsOfUnique | ml_worker/pipeline.py:348-355 | nothing else does |
| JitterSmoothing.IsolateBackchannels | ml_worker/pipeline.py:357-384 | the sweep over run triples yields exactly `IsolatedTo`, whose meaning the next rows state |
| IsolationLaws.ShownIff | ml_worker/pipeline.py:302-325 | the tokens the search shows are exactly yes, no and their like, my lord and your lordship, I'm grateful, and as the court pleases |
| IsolationLaws.SweepIsolates | ml_worker/pipeline.py:357-384 | run after run, a run of one to five words with backchannel between two runs of one other speaker keeps exactly the words from its first to its last backchannel; those before end the run before and those after start the run after, under their speakers; any other run is left alone |
| IsolationLaws.SplitIsolates | ml_worker/pipeline.py:288-453 | a segment of three such runs without a boundary before the last is split into exactly those reduced runs, if none of them is jitter |
| IsolationLaws.ForYesIsolated | ml_worker/pipeline.py:357-384 | "the order you asked", "for yes", "not talk about it": the split hands "for" to the first speaker and leaves "yes" |
| JitterSmoothing.IsolationKeeps | ml_worker/pipeline.py:357-384 | trimming keeps every token in order and empties no run |
| JitterSmoothing.SmoothPass | ml_worker/pipeline.py:389-442 | one pass yields `SmoothTo`; the last kept run is never read when there is none, which the code relies on |
| JitterLaws.PassLaw | ml_worker/pipeline.py:389-453 | a pass leaves the same words in alternating runs, those of an absorbed run under the speaker of the nearest run before it that is not absorbed, or of the second run if it leads; absorbed is all one-word jitter at an end or between two runs of one speaker, but not the second run behind an absorbed first |
| JitterSmoothing.SmoothJitter | ml_worker/pipeline.py:386-453 | the while loop ends, since a changing pass leaves fewer runs, and yields `Smoothed` |
| JitterLaws.SmoothedLaw | ml_worker/pipeline.py:386-453 | smoothing is a sequence of such passes, each over runs with jitter, to runs without any |
| JitterSmoothing.SmoothingIsStable | ml_worker/pipeline.py:386-453 | smoothing keeps every token in order and stops at a fixpoint: no run can be absorbed, and smoothing again changes nothing |
| JitterSmoothing.PassLabels | ml_worker/pipeline.py:389-442 | after a pass all words carry their run's label if and only if no two neighbouring runs were absorbed |
| JitterSmoothing.SmoothedLabels | ml_worker/pipeline.py:386-453 | after all passes, too: all words carry their run's label if and only if no pass absorbed two neighbouring runs at once; a label gone astray is never put right |
| JitterSmoothing.SplitSegmentRuns | ml_worker/pipeline.py:288-453 | the runs are exactly `Split` of the words as they came in; the array, whose words the runs share in the code, is overwritten with the words of the runs at the end, so it has their labels |
| JitterSmoothing.SplitKeepsWords | ml_worker/pipeline.py:288-453 | it keeps the words in order, with non-empty alternating runs and no jitter left |
| JitterLaws.SplitLaw | ml_worker/pipeline.py:288-453 | a split is: labels snapped, words grouped into the maximal runs of those labels, run after run isolated, and jitter absorbed until none is left |
| JitterSmoothing.SplitLabels | ml_worker/pipeline.py:288-453 | after the split all words carry their run's label if and only if no smoothing pass absorbed two neighbouring runs at once |
| JitterSmoothing.LabelsCanDiffer | ml_worker/pipeline.py:386-453 | a segment of six words after whose split a word of one speaker is in a run of the other |
| Regrouping.Regroup | ml_worker/pipeline.py:657-690 | the loop yields `Regrouped`: a new segment at each change of speaker or origin |
| Regrouping.RegroupedKeeps | ml_worker/pipeline.py:657-690 | segments hold exactly the words of the stream, none empty, each with the times of its words and one speaker |
| Regrouping.GatheredLaw | ml_worker/pipeline.py:657-690 | a segment begins exactly where the speaker changes or a word comes from another segment than the first of its own, rewritten words coming from none; it has the times, texts and words of its block |
| Regrouping.StageTwoInput | ml_worker/pipeline.py:657-694 | regrouping and normalizing yield what stage 2 needs: non-empty, uniformly labelled segments that start with their first word |
| RoleDiscovery.DiscoverRoles | ml_worker/pipeline.py:703-746 | the loops yield the tally of all segments and the roles that maximise it |
| RoleDiscovery.TallyCounts | ml_worker/pipeline.py:703-722 | votes are the numbers of segments with counsel's or the bench's speech |
| RoleDiscovery.RolesAreDistinct | ml_worker/pipeline.py:724-746 | judge and counsel differ, both speak, and nobody has more of counsel's, or of the others more of the bench's, segments |
| RoleDiscovery.CounselByDefault | ml_worker/pipeline.py:724-731 | if nobody addresses the bench, who speaks first is taken for counsel |
| RoleDiscovery.JudgeByScore | ml_worker/pipeline.py:736-746 | if nobody but counsel speaks for the bench, the judge is who has the highest speaking time over one plus five times the addresses, among the others that speak a second or more; there is none exactly if nobody does |
| RoleDiscovery.RemapClusters | ml_worker/pipeline.py:749-780 | the loops yield `Remapped`: phantom and surplus speakers folded into judge or counsel by their votes |
| RoleDiscovery.FoldedInto | ml_worker/pipeline.py:749-780 | a glitch, and under a limit of two everybody but judge and counsel, becomes counsel if addressing the bench in more segments than speaking for it, otherwise the judge if there is one; everybody else stays |
| RoleDiscovery.RemapSpeakers | ml_worker/pipeline.py:749-780 | no speaker is introduced, and under a limit of two with a judge only judge and counsel are left |
| FormulaSplit.FindCut | ml_worker/pipeline.py:848-925 | the nested searches yield `CutOf`: a lone Sir in a judge's segment, else the first place of the first formula that asks for a cut |
| FormulaSplit.SplitFormulas | ml_worker/pipeline.py:845-932 | sweeps are repeated at most three times and end early when one cuts nothing (`SplitRounds`); the next rows state what a sweep does |
| CutLaws.SplitOneLaw | ml_worker/pipeline.py:848-925 | a segment of four words or more is cut at its first lone "Sir?", else at the first place of the first formula that asks for it, else not at all; the piece before the cut is the judge's, the piece at the cut is counsel's and is "Sir?" or the formula, and what follows is the judge's, but counsel's own, less a doubled "lord", behind "Yes, my Lord" after an inquiry |
| CutLaws.SplitRoundsLaw | ml_worker/pipeline.py:845-932 | the transcript is swept segment by segment, as often as told or until a sweep cuts nothing |
| CutLaws.SirIsCounsels | ml_worker/pipeline.py:856-872 | "prayer? Sir? Can I see the order?" of the judge becomes judge, counsel, judge |
| FormulaSplit.MoreIffSomeCut | ml_worker/pipeline.py:926-932 | a sweep adds segments if and only if some segment has a cut, so stopping early is right |
| FormulaSplit.CutOfFits | ml_worker/pipeline.py:857-925 | every cut lies inside its segment and a dropped word is a doubled "lord" |
| FormulaSplit.SplitRoundsThin | ml_worker/pipeline.py:821-932 | pass 1C keeps every word, in order and with its times, except doubled "lord" tokens |
| FormulaSplit.SplitRoundsKeep | ml_worker/pipeline.py:821-932 | pass 1C introduces no speaker, empties no segment and keeps labels uniform |
| RolePasses.RelabelByRole | ml_worker/pipeline.py:934-957 | the two sweeps yield, segment by segment, pass 1B of pass 1 |
| RolePasses.Pass1GoesToCounsel | ml_worker/pipeline.py:934-947 | on uniformly labelled segments pass 1 has no other label to vote for and gives the segment to counsel |
| RolePasses.Pass1And1BKeep | ml_worker/pipeline.py:934-957 | they keep the speech, introduce no speaker, and leave the judge no address to the bench but inquiries and directives |
| AlternationLaws.DirectivesAndAddresses | ml_worker/pipeline.py:934-957 | a segment ends with the judge exactly if it is a directive or was the judge's and no address; the judge's addresses become counsel's, and everything else stays |
| RolePasses.AlternateRoles | ml_worker/pipeline.py:1112-1156 | the sweep, which reads labels it has just changed, yields exactly `Pass2`, whose result the next rows state |
| AlternationLaws.WhoseItIs | ml_worker/pipeline.py:1112-1156 | who each segment belongs to after pass 2, for every speaker, from the texts and speakers that came in and whether a directive was broken off before it |
| AlternationLaws.BenchIsJudges | ml_worker/pipeline.py:1119-1121 | case A: bench authority and inquiries are the judge's, whoever was said to speak |
| AlternationLaws.BeforeIsJudges | ml_worker/pipeline.py:1123-1136 | cases B and C: what a submission or a request for clarification comes after is the judge's |
| AlternationLaws.ArgumentIsCounsels | ml_worker/pipeline.py:1138-1141 | case D: of the two, who argues counsel's case is counsel, unless a directive goes on or the segment behind says otherwise |
| AlternationLaws.DirectiveGoesOn | ml_worker/pipeline.py:1143-1152 | case E: what goes on with a directive the judge broke off is the judge's unless it is an answer |
| AlternationLaws.AnswerIsCounsels | ml_worker/pipeline.py:1154-1156 | case F: of the two, who answers is counsel unless the segment behind says otherwise |
| AlternationLaws.ThirdKeepsIff | ml_worker/pipeline.py:1112-1156 | a third speaker keeps a segment exactly if it is not the bench's, goes on with no directive and comes before no submission |
| AlternationLaws.WritIsCounsels | ml_worker/pipeline.py:1138-1141 | "We served the writ on Monday", all there is and labelled as the judge's, is given to counsel |
| RolePasses.Pass2Keeps | ml_worker/pipeline.py:1112-1156 | pass 2 keeps the speech with its times and introduces no speaker |
| RolePasses.Pass2Labels | ml_worker/pipeline.py:1112-1156 | though the sweep overwrites labels it has read and will read, each segment ends with a label given, in closed form, by the segments before it and the one after it |
| RolePasses.AddressGivenToJudge | ml_worker/pipeline.py:1112-1156 | a pure address to the bench ends with the judge if and only if a request for clarification, not bench speech, comes next, and it was the judge's or counsel's or, a third speaker's, follows a directive broken off by the judge; or a submission comes next and the address is found only in the stripped text |
| RolePasses.OwnAddressGivenToJudge | ml_worker/pipeline.py:1112-1156 | for a segment of judge or counsel: if and only if a request for clarification, not bench speech, comes next, or such a submission |
| RolePasses.JudgeSaysMyLord | ml_worker/pipeline.py:1131-1136 | counsel's "Yes, my Lord." before "Sir?" is given to the judge |
| BoundaryHealing.HealBoundary | ml_worker/pipeline.py:959-1059 | honorific, preposition and bleed repair of one boundary yield `Healed`, whose meaning the next rows state |
| HealingLaws.HealedLaw | ml_worker/pipeline.py:965-1057 | a cut honorific or preposition moves its word to the left; then, if some tail of one to seven words bleeds, exactly the longest such tail is put in front of the next segment, and if none does nothing moves |
| HealingLaws.YesHandedOn | ml_worker/pipeline.py:1010-1057 | the judge's "It was heard. Yes" before counsel's "my Lord.": counsel says "Yes my Lord." |
| HealingLaws.Pass1ELaw | ml_worker/pipeline.py:959-1063 | the boundaries are healed from left to right, each on what the one before left, and emptied segments dropped |
| BoundaryHealing.HealBoundaries | ml_worker/pipeline.py:959-1059 | the sweep over boundaries, each on what the last repair left, yields `Pass1E` |
| BoundaryHealing.HealedKeeps | ml_worker/pipeline.py:965-1057 | a repair keeps the words of the two segments and moves their boundary at most two words right or seven left |
| BoundaryHealing.HealingIsLocal | ml_worker/pipeline.py:959-1059 | over a whole sweep segments keep speakers and order, and no boundary moves further than that |
| BoundaryHealing.EmptyIff | ml_worker/pipeline.py:972-989 | the sweep empties a segment if and only if it is one word that completes the honorific at the end of the segment before it, of another speaker and not emptied itself; repairs at other boundaries never do |
| BoundaryHealing.Pass1ELeaves | ml_worker/pipeline.py:959-1063 | what pass 1E leaves are exactly the other segments, in order and with their speakers, each beginning within seven words left and two right of where it began |
| BoundaryHealing.Pass1EKeeps | ml_worker/pipeline.py:959-1063 | pass 1E keeps the speech, leaves no empty segment and introduces no speaker |
| SandwichTrim.TrimSandwiches | ml_worker/pipeline.py:1064-1107 | the sweep over triples, each on what the last trim left, yields `Pass1D` |
| TrimmingLaws.TrimmedLaw | ml_worker/pipeline.py:1065-1105 | between two segments of one other speaker: an answer word before at least three words of open speech keeps only itself; up to five words keep those from the first to the last backchannel and what no neighbour is within 1.2 s of; up to three words without backchannel in mid-sentence go back to the neighbours' speaker; anything else stays |
| TrimmingLaws.Pass1DLaw | ml_worker/pipeline.py:1064-1107 | the segments are trimmed from left to right, each on what the one before left |
| SandwichTrim.TrimmedKeeps | ml_worker/pipeline.py:1064-1106 | trimming keeps the words of the three segments in order |
| SandwichTrim.Pass1DKeeps | ml_worker/pipeline.py:1064-1107 | pass 1D keeps the speech and empties no segment |
| Consolidation.Consolidate | ml_worker/pipeline.py:1158-1186 | the greedy loop yields `Consolidated`, whose meaning the next row states |
| StitchingLaws.ConsolidatedLaw | ml_worker/pipeline.py:1158-1186 | the segments that have words fall into consecutive blocks of one speaker, said as one segment each: every segment goes on with what its block says before it and none with the block before, that is after at most 0.85 s in mid-sentence, or at most 0.45 s if either has at most four words |
| Consolidation.ConsolidatedKeeps | ml_worker/pipeline.py:1158-1186 | stitching keeps the speech; segments are non-empty and agree with their words |
| Consolidation.ConsolidationIdempotent | ml_worker/pipeline.py:1158-1186 | for segments that start with their first word, whatever labels the words carry, no two neighbours of the result meet the test, so stitching again changes nothing |
| Consolidation.RenumberSpeakers | ml_worker/pipeline.py:1190-1206 | map and sweep yield `Renumbered`: segments and words renamed by rank |
| Consolidation.RenumberingIsOneToOne | ml_worker/pipeline.py:1190-1206 | stage 3 is a one-to-one renaming onto 0 to n-1 that touches no word |
| Consolidation.LabelsAppearInOrder | ml_worker/pipeline.py:1190-1206 | for nondecreasing starts the first speaker is SPEAKER_00 and labels appear in order |
| CourtTurns.ReconstructTurns | ml_worker/pipeline.py:697-1206 | discovery, remap, passes 1C, 1, 1B, 1E, 1D, 1E, 2, consolidation and renumbering, in this order, yield `Renumbered(Stage2)` |
| CourtLaws.Stage2Law | ml_worker/pipeline.py:697-1186 | every list of segments on the way through stage 2 is related to the one before it by what the pass is for, as the laws of the passes say, in the order of the code |
| CourtTurns.Stage2KeepsSpeech | ml_worker/pipeline.py:697-1186 | stage 2 leaves the words it was given, in order with every timestamp, less doubled "lord" tokens and with no respelling but My, Your, Lord. and Yes. for my, your, lord and says; no segment is empty, each agrees with its words; no speaker is introduced and with a limit of two only judge and counsel remain |
| CourtTurns.Stage2IsStitched | ml_worker/pipeline.py:1112-1186 | stitching the result of stage 2 again changes nothing, although pass 2 relabels segments and not their words |
| CourtTurns.ResultKeepsSpeech | ml_worker/pipeline.py:697-1206 | all of that holds of the renumbered result that is returned: same speech, speakers told apart as before, and with a limit of two and a judge none but SPEAKER_00 and SPEAKER_01 |
| NumberTexts.NoNumber | ml_worker/normalizer.py:6-64 | no rate noun and no single letter is a number in digits or words |
| NumberTexts.CourtNumbersSound | ml_worker/normalizer.py:840-876 | with a parser that writes numbers in words as digits, whatever it makes of other texts, the tests and the text of a merged pair satisfy what merging asks of them: a merged pair is neither a number nor a letter |
| NumberTexts.FiveAIsExhibit | ml_worker/normalizer.py:848-876 | "five", "a" becomes "5A" |
| SlashTexts.FormattedEndsSolid | ml_worker/normalizer.py:942-960 | formatting a slashed token part by part leaves no slash and no blank at its end if there was none |
| SlashTexts.CourtSlashesSound | ml_worker/normalizer.py:891-960 | stripping, putting together and formatting as the code does them, with its number words and suit acronyms, satisfy what merging asks of them |
| SlashTexts.CourtAndDivision | ml_worker/normalizer.py:891-960 | "FHC", "/", "ABJ" becomes "FHC/ABJ" |
| CourtVocabulary.CourtIsSound | ml_worker/pipeline.py:831-843 | the formulas and the cleaning of the code satisfy what these results ask of a lexicon |
| Chronology.RankIsInjective | ml_worker/diarizer.py:957-967 | renaming by first start is one-to-one onto 0 to n-1 |
| Chronology.RankedStays | ml_worker/diarizer.py:957-967 | renaming renamed utterances changes nothing |

## Left out

- Speech recognition, alignment, diarization models, audio features and centroids: scores, similarities
  and raw turns are arbitrary inputs.
- Regular expressions, word lists and the text rewriting of the normalizer: functions on texts. The concrete
  texts cover letters without accents.
- Rounding of floating-point seconds: times are whole milliseconds; shares of a phrase's time are rounded
  by any monotone rule with exact ends.
- Columns nothing in the queue depends on (stage, progress, error text, timestamps of updates) and the
  payload of deliveries.
- QueueRuns.LeaseLedger: bounds leases by counted re-queues; heartbeat and duration recoveries are not
  themselves bounded in the code, so no absolute bound is stated.
- Webhooks.NoRedelivery: a request that cannot be built counts as a failed POST.
- RoleDiscovery.DiscoverRoles: ties are broken by order of first vote, as the dictionaries of the code do.
- RolePasses.RelabelByRole: a tie between labels goes to the first, where the code's choice depends on the
  order of a set; on uniformly labelled segments there is nothing to choose.
- WordSegments.AssignSpeakers: skipped malformed turns are not modelled, and the text of a segment is
  the list of its tokens.
- Timeline.StitchChunks: the stitch time of a chunk is given with it, as the start of its window plus half
  the overlap; speakers are numbers, so they are ordered as numbers and not as strings.
- Sharing of word objects between the segment list and earlier lists: segments and runs are values, and
  only the arrays swept in place are objects; where runs share the words of an array, it is brought up
  to date at the end.
- Stage 1 around the split (language model clean-up, duplicate segments, dominant speaker of a segment
  that stays whole) and stage 4, which is the normalization of each segment again.
- `get_root_target`, whose map is always empty; progress percentages; formatting of durations.
- HTTP handlers, authentication, address checks, configuration, deployment, logging.
