# Verified model of the LyricsPlus backend

LyricsPlus asks several lyrics providers at once, keeps the best answer, aligns line-synced text with
word-timed text, converts between formats, stores what it finds and protects itself from overload.  This
project models the parts of the backend in which something can go subtly wrong and proves what they promise,
for all inputs, all runs and all interleavings.

* **Word alignment** (`GridPaths`, `Alignment`, `Syllabus`, `WordSync`, `SongSync`, `Retime`).  The alignment is a forward
  dynamic program over a grid.  `GridPaths` proves once, for any grid graph with non-negative costs, that
  relaxing cell after cell finds a cheapest path; `Alignment` instantiates it with the program's own rules and
  follows the traceback.  `Syllabus` turns the slots into timed syllables and shows that nothing visible is
  lost, `SongSync` does so for a whole song, `Retime` gives untimed lines their times.  Costs are exact reals; both
  similarity functions and the normalisation are arbitrary functions.
* **Provider race** (`Race`, `RaceOutcome`, `RaceRuns`, `Limiter`, `Breaker`, `Singleflight`, `Grading`,
  `NegativeCache`).  The race, the limiter and the request tracker are machines whose events interleave freely; the
  theorems speak of every reachable state.
* **QRC cipher** (`Cipher`).  The permutations, the key schedule, the block function and the triple chaining over
  bit-vectors.  The S-boxes and one offset differ from FIPS 46-3, and no claim of conformance is made.
* **Database merge** (`Evaluation`, `Merger`, `MergeRun`).  SQL statements act on keyed row sets and visit their
  rows in any order; the workers that judge conflicting rows take their steps in any order.
* **Formats** (`TtmlTime`, `Ttml`, `TtmlRoundTrip`, `TtmlParts`; `Kpoe`, `KpoeParts`, `KpoeVersions`, `KpoeRoundTrip`;
  `Env`, `EnvFile`).  Each writer and reader is followed by what survives the round trip, with the exact condition.
* **Bounded structures** (`Levenshtein`, `MemCache`, `CacheRuns`, `RateLimiter`, `WriteQueue`).  Fast forms and the
  simple ones they agree with.

`dafny verify dfyconfig.toml` checks the whole project.  Shared definitions are in `Basics.dfy` and
`Subsequences.dfy`.

## What turned out false

Some statements one would expect of the code do not hold.  The code is modelled as it is.  For each of them there is
the exact condition under which the statement holds and an input or a run for which it fails.

* A line at time 0 without a duration does not come back from TTML: the reader takes its times from its
  syllables (`TtmlRoundTrip.LineRoundTrip`, internal/parsers/ttml.go:681-688; fails in
  `TtmlRoundTrip.LineAtZeroMoves`).  Leading white space of a syllable moves to the syllable before it, or is lost
  (`TtmlRoundTrip.SyllabusRoundTrip`; fails in `TtmlRoundTrip.LeadingSpaceMoves`).  A response of type syllable is
  written without its syllables (`TtmlRoundTrip.LineRoundTrip`, internal/parsers/ttml.go:1046; fails in
  `TtmlRoundTrip.SyllablesNotWritten`).
* A value with a backslash directly followed by `n`, `r` or `t` changes when it is written to an env file and read
  again (`Env.SpoiledIs`; fails in `Env.BackslashBeforeLetter`); `Env.EscapeRoundTrip` says what it becomes.  A key
  that occurs on several lines keeps the last one's value, while setting it changes the first one
  (`EnvFile.SetThenLoad`; fails in `EnvFile.LaterLineWins`).  Setting a key overwrites the first line of a key that
  differs in case only, which may lose its value (`EnvFile.OthersAfterSet`; happens in `EnvFile.CaseOverwrites`).  Every
  save and load adds one empty line (`EnvFile.SaveThenSplit`).
* Merging the same source twice inserts its rows with a NULL source column again (`Merger.MergeTwice`; fails in
  `Merger.NullSourceTwice`).
* A race that ends with nothing can look like a miss although not everybody missed cleanly, when the caller has left
  (`RaceOutcome.FalseMissWhen`).  This happens in four ways: a verdict is recorded before the mark that its source was
  unwell (`RaceRuns.UnmarkedLooksClean`), a launched source has not been asked (`RaceRuns.UnaskedLooksClean`), a source
  was left for a phase that never began (`RaceRuns.UnreachedLooksClean`), or a source has answered and nobody took the
  answer (`RaceRuns.AnsweredLooksClean`).  While the caller waits, it cannot happen
  (`RaceOutcome.NegativeOnlyWhenClean`).
* A caller can join a shared fetch that the tracker has just cancelled (`Singleflight.WaitersKeepTheirFetch`; happens
  in `Singleflight.JoinsALostFetch`).
* Merging line metadata into word timings starts over for ever when retiming yields no time: retiming again gives
  the same lines (`Retime.RetimingSettles`).  With timed lines that hold no negative time or duration this happens
  exactly when no word-timed line has a time (`Retime.PrepareLines`).  With any timed lines it happens exactly when no
  matched range and no gap around unmatched lines has a time to give (`Retime.RetimesToNothing`), which compares times
  of the timed lines alone; when no text is matched, exactly when the last timed line ends at or before zero
  (`Retime.NothingMatched`).  An input with a timed line that starts over for ever is in `Retime.NegativeTimesStick`.
* The seconds in a Retry-After header are rounded down, so waiting them can be too short by a fraction of a second
  (`RateLimiter.RetryAdvice`; fails in `RateLimiter.RetryTooSoon`).
* A breaker admission of a source that turns out not to be configured after it was admitted is never reported
  (`Race.EachOnce`; happens in `RaceRuns.AdmissionLost`).
* Background flags of line-synced responses are lost between the two versions of the format
  (`KpoeRoundTrip.LineRoundTrip`; fails in `KpoeRoundTrip.BackgroundLost`).

## Model

| member | source | states |
|---|---|---|
| GridPaths.Relax | internal/providers/qaple.go:630-633 | one relaxation keeps the table between its bounds: every cell is the cost of some path, and no relaxed edge can still improve a cell |
| GridPaths.TableIsLowerBound | internal/providers/qaple.go:609-681 | after the sweep no legal path at all, of whatever length, is cheaper than the cell it ends in |
| Alignment.StepCostNonNegative | internal/providers/qaple.go:578-589 | with similarities between 0 and 1 every operation the rules allow costs at least nothing, time and sequence penalties included |
| Alignment.FuseApple | internal/providers/qaple.go:638-650 | the fused text and its crossing penalty cover exactly the fused tokens |
| Alignment.FillTable | internal/providers/qaple.go:596-681 | the two nested loops, with their early breaks, relax every edge the transition rules allow and no other, on every grid |
| Alignment.Traceback | internal/providers/qaple.go:683-733 | walking the recorded operations back from the last cell yields the slots and leftovers of exactly the path the table was built on, and nothing when that cell was never reached |
| Alignment.SortReversed | internal/providers/qaple.go:734-736 | sorting the leftovers by sequence number restores the order in which the path skipped them |
| Alignment.PathPartitions | internal/providers/qaple.go:688-732 | along any path of allowed operations every timed token is either used by one slot or left over, in order |
| Alignment.SmallIsAffordable | internal/providers/qaple.go:599-611 | lines whose all-skip cost stays below the infinite cost can always be aligned |
| Alignment.AlignTokensToQQ | internal/providers/qaple.go:556-739 | the result is read off a cheapest of all allowed alignments; pool and slots partition; each merge head is followed by exactly its absorbed slots; what comes out in the empty and the unaffordable cases |
| Syllabus.AnchorRun | internal/providers/qaple.go:741-781 | each untimed token of a run, from left to right, takes the leftover of the gap that is picked for it after the last one taken, or none |
| Syllabus.PickIsBest | internal/providers/qaple.go:758-772 | what is picked lies after the last one taken, scores above the threshold and no later leftover scores higher; nothing is picked only when none scores above it |
| Syllabus.SplitWordByNorms | internal/providers/qaple.go:785-815 | the word is cut at the lengths of the norms before its trailing punctuation; the parts join back to the text, all but the last two exactly as long as their norms |
| Syllabus.BuildMergedText | internal/providers/qaple.go:817-828 | fusing tokens adds nothing but spaces |
| Syllabus.Expand | internal/providers/qaple.go:836-888 | one entry for each merged group, each part of a fused token and each other token, exactly as the slots say; the visible text of the line and the sequence of timings are kept |
| Syllabus.AnchorGaps | internal/providers/qaple.go:892-917 | every maximal run without timings is anchored in the gap between its timed neighbours, or the ends of the line |
| Syllabus.AnchoringIsSafe | internal/providers/qaple.go:892-917 | anchoring never touches a timing that was there and only adds timings of leftovers |
| Syllabus.Emit | internal/providers/qaple.go:919-979 | the loop emits one syllable for each entry: timed ones keep their timing, untimed ones share the time of their run by length and follow each other, with a space behind exactly the word ends |
| Syllabus.EmissionsKeep | internal/providers/qaple.go:919-979 | emission keeps the visible text, gives exactly the given timings back and lays untimed syllables end to end, each at least 50 ms long |
| Syllabus.MakeMonotone | internal/providers/qaple.go:981-986 | the loop in place moves every syllable that would step back to the end of the one before it, from left to right |
| Syllabus.MonoKeeps | internal/providers/qaple.go:981-986 | texts and durations stay, and start times ascend when durations are not negative |
| Syllabus.MonoFixed | internal/providers/qaple.go:981-986 | syllables that ascend already are left alone |
| Syllabus.BuildSyllabus | internal/providers/qaple.go:830-989 | the four phases one after the other, on any well-formed slots; no visible character of the line is lost, duplicated or moved; times ascend when durations are not negative; matched durations survive, and all timings do when every entry was matched in order |
| WordSync.SplitHyphenated | internal/providers/qaple.go:366-388 | the loop cuts the word into its hyphen parts, and leaves a word without a cut whole |
| WordSync.HyphenPartsMeet | internal/providers/qaple.go:366-388 | the parts join back to the word and meet exactly behind the hyphens that stand between two letters or digits |
| WordSync.TokenizeAppleLine | internal/providers/qaple.go:396-411 | one token for each part of each word, the last part of a word final; together they spell the line without its white space |
| WordSync.FlattenPool | internal/providers/qaple.go:468-512 | the words of all syllables in order, each with its start and its share of the duration |
| WordSync.PoolIs | internal/providers/qaple.go:468-512 | the pool is numbered, holds exactly the words of all syllables, and durations stay non-negative |
| WordSync.SharesAddUp | internal/providers/qaple.go:489-508 | the rounded shares of the words add up to the duration of the syllable, up to half a millisecond for each word |
| WordSync.WithinOrdered | internal/providers/qaple.go:514-534 | the candidates of a line keep the pool's strict order and come from the pool |
| WordSync.AlignLine | internal/providers/qaple.go:1201-1202 | the slots and leftovers of one line are those of a cheapest alignment; they are well formed, keep durations non-negative and use the candidates up |
| WordSync.SyncLine | internal/providers/qaple.go:1182-1202 | from the text of a line, over its tokens, candidates and a cheapest alignment, to syllables that hold exactly its visible characters with ascending times |
| SongSync.TransferBackground | internal/providers/qaple.go:991-1015 | exactly the syllables that overlap a background syllable of the line are marked |
| SongSync.OverlapMeans | internal/providers/qaple.go:1007-1012 | two stretches overlap exactly when some millisecond lies in both |
| SongSync.SyncSong | internal/providers/qaple.go:1169-1232 | every line of the song is synced in order, with its own text, times and background marks; the synced lines are returned, or nothing is, exactly when more than half of all their words are left untimed |
| Retime.MatchLine | internal/providers/qaple.go:1038-1077 | a line takes the first most similar timed line among the next ten and stretches over its neighbours whose text it contains |
| Retime.MatchLines | internal/providers/qaple.go:1034-1093 | matched lines take disjoint, increasing ranges of timed lines |
| Retime.Interpolated | internal/providers/qaple.go:1095-1130 | an unmatched line stays between the end of the line before its run and the start of the one after it, also after rounding |
| Retime.Monotone | internal/providers/qaple.go:1088-1130 | with ordered timed lines, the new times of neighbours never decrease, for any similarity |
| Retime.SomeLineTimed | internal/providers/qaple.go:1088-1130 | with timed lines in any order that hold no negative time or duration, at least one line gets a positive time or duration |
| Retime.RetimeLines | internal/providers/qaple.go:1017-1133 | every line gets the time its range or its run prescribes; without timed lines nothing changes; times ascend when the timed lines are ordered |
| Retime.RetimesOnce | internal/providers/qaple.go:1017-1133 | the new times depend on the texts of the lines alone, not on the times they had |
| Retime.RetimingSettles | internal/providers/qaple.go:1155-1167 | retiming what was retimed changes nothing, so the merge that starts over once without a time starts over for ever |
| Retime.UntimedExactly | internal/providers/qaple.go:1077-1130 | the new times leave every line untimed exactly when each matched range starts at or before zero, ends no later than it starts and has a best line without duration, and each gap ends at or before zero and is narrower than half a millisecond for each of its lines |
| Retime.RetimesToNothing | internal/providers/qaple.go:1155-1167 | retiming yields no time exactly under that condition on the timed lines, for times of any sign |
| Retime.NothingMatched | internal/providers/qaple.go:1095-1130 | when no line is matched, the condition is that the last timed line ends at or before zero |
| Retime.PrepareLines | internal/providers/qaple.go:1155-1167 | lines with a time are taken as they are, others retimed; the merge starts over for ever exactly when there is no timed line or none of the matched ranges and gaps has a time to give, which without negative times means that there is no timed line |
| Retime.NegativeTimesStick | internal/providers/qaple.go:1155-1167 | an input with a timed line before zero whose lines stay without a time however they are retimed |
| Race.StepKeeps | internal/orchestrator/race.go:160-562 | every enabled step of every goroutine, of the phase, of the caller and of the clock keeps the race invariant |
| Race.EachOnce | internal/orchestrator/race.go:160-252 | every permit is released exactly once, and every breaker admission gets exactly one answer unless its source gave up as not configured |
| Race.SendsNeverBlock | internal/orchestrator/race.go:416-431 | whenever a goroutine is about to send, the channel has room |
| Race.ContextEnds | internal/orchestrator/race.go:419-430 | once the last goroutine of a phase has left, its context is cancelled |
| Race.BestAnswer | internal/orchestrator/race.go:259-311 | whichever exit the race takes, nothing received before outranks the answer it returns, and that answer was received |
| RaceOutcome.PickWinnerIsPick | internal/orchestrator/race.go:436-453 | whatever pickWinner may return for the result slots of a phase is a best answer received in it, as the steps of the race demand |
| RaceOutcome.CacheableWhen | internal/orchestrator/race.go:62-94 | at every moment of every race, exactly which states of the sources make the status map look like a miss |
| RaceOutcome.NegativeOnlyWhenClean | internal/orchestrator/race.go:62-94 | a race that found nothing while its caller waited, or that asked everybody, is remembered as a miss exactly when everyone who could be asked missed cleanly and somebody did |
| RaceOutcome.FalseMissWhen | internal/orchestrator/race.go:62-94 | exactly when a race that found nothing looks like a miss although not everybody missed cleanly, and that its caller has left then |
| RaceRuns.UnmarkedLooksClean | internal/orchestrator/race.go:220-228 | a run in which the caller leaves between a verdict and the mark that the source was unwell |
| RaceRuns.UnaskedLooksClean | internal/orchestrator/race.go:434-441 | a run in which the caller leaves while a launched source has not been asked |
| RaceRuns.AnsweredLooksClean | internal/orchestrator/race.go:434-441 | a run in which the caller leaves between an answer and its receipt |
| RaceRuns.UnreachedLooksClean | internal/orchestrator/race.go:284-286 | a run in which the caller leaves before the second phase |
| RaceRuns.AdmissionLost | internal/orchestrator/race.go:169-175 | a run in which an admission of the breaker stays unreported |
| NegativeCache.ShouldCacheNegative | internal/service/service.go:168-185 | a miss is cacheable exactly when somebody missed and nobody was degraded, late, cancelled or still waiting |
| Grading.GradeMeans | internal/orchestrator/grade.go:32-55 | a grade of nothing means no lines, a word grade of a line answer means syllables, and trust never lowers a grade |
| Grading.PickWinner | internal/orchestrator/race.go:564-608 | the winner has the highest priority, and among those the first in the asked order; without any priority it is the first with lyrics; there is none exactly when nobody answered |
| Limiter.ReachableInv | internal/orchestrator/limiter.go:62-121 | in every interleaving both semaphores count exactly the calls that hold their permits and stay within their limits |
| Limiter.ReleasesSucceed | internal/orchestrator/limiter.go:91-97 | a held permit can always be given back |
| Limiter.LevelsAgree | internal/orchestrator/limiter.go:62-121 | the per-source counts exceed the global one by exactly the calls between their two semaphores |
| Breaker.Breaker.ComputeCooldown | internal/orchestrator/breaker.go:81-90 | the doubling loop computes the base times a power of two, capped |
| Breaker.Breaker.Allow | internal/orchestrator/breaker.go:94-115 | admission and the new state of the name, other names untouched |
| Breaker.Breaker.Report | internal/orchestrator/breaker.go:118-149 | what a good and a bad report do to the state of the name, other names untouched |
| Breaker.CooldownBounds | internal/orchestrator/breaker.go:81-90 | cooldowns lie between base and maximum and never shrink with another trip |
| Breaker.RunSound | internal/orchestrator/breaker.go:72-162 | in every run, closed means below the threshold with nothing pending and open means at the threshold after at least one trip |
| Breaker.AdmissionsSpaced | internal/orchestrator/breaker.go:94-162 | while the breaker is open and nothing good or neutral is reported, k admissions take at least k gaps of time |
| Breaker.TripHolds | internal/orchestrator/breaker.go:118-149 | the same from the moment of the trip, and the breaker stays open |
| Breaker.FailedProbeBacksOff | internal/orchestrator/breaker.go:132-141 | after a failed probe a call is admitted exactly from the end of the next cooldown on, which is no shorter than the last |
| Breaker.OneProbe | internal/orchestrator/breaker.go:104-114 | while a probe is out, another one is admitted exactly when the probe has timed out |
| Singleflight.ReachableInv | internal/orchestrator/singleflight.go:36-129 | in every interleaving the waiter count of a key is the number of its unreleased callers, cancels are registered exactly for racing fetches of wanted keys, and the group knows exactly the unfinished fetches |
| Singleflight.RacingIsWanted | internal/orchestrator/singleflight.go:62-77 | a registered fetch that the tracker has not cancelled has a waiter |
| Singleflight.CancelledWhenUnwanted | internal/orchestrator/singleflight.go:47-77 | the step in which the tracker cancels a fetch leaves nobody waiting for it |
| Singleflight.OneFetchPerKey | internal/orchestrator/singleflight.go:86-129 | two unfinished fetches never share a key |
| Singleflight.WaitersKeepTheirFetch | internal/orchestrator/singleflight.go:47-129 | a caller waits for the one fetch of its key, which the tracker has cancelled exactly when it had done so before the caller joined |
| Singleflight.JoinsALostFetch | internal/orchestrator/singleflight.go:47-129 | a run in which a caller joins a fetch the tracker has cancelled |
| Cipher.InverseOfInitial | internal/providers/qqmusic_crypto.go:80-233 | the inverse permutation undoes the initial one on every block, bit for bit |
| Cipher.InitialOfInverse | internal/providers/qqmusic_crypto.go:80-233 | and the other way round |
| Cipher.F | internal/providers/qqmusic_crypto.go:235-316 | the loops compute the round function: expansion, key, eight S-boxes and the permutation |
| Cipher.KeySchedule | internal/providers/qqmusic_crypto.go:347-377 | the rotating registers yield the round keys in the order of the mode |
| Cipher.SchedulesReversed | internal/providers/qqmusic_crypto.go:347-377 | the decrypting schedule is the encrypting one backwards, for every key |
| Cipher.CryptBlock | internal/providers/qqmusic_crypto.go:318-345 | the block loop is sixteen Feistel rounds between the two permutations |
| Cipher.RoundsUndo | internal/providers/qqmusic_crypto.go:318-345 | with the keys backwards, each further round undoes one of the rounds before, for any round function |
| Cipher.CryptUndo | internal/providers/qqmusic_crypto.go:318-345 | a block survives encrypting and decrypting whatever the round function is |
| Cipher.TripleUndo | internal/providers/qqmusic_crypto.go:379-398 | triple decryption undoes triple encryption, and the reverse, for every block and 24-byte key |
| Cipher.MessageUndo | internal/providers/qqmusic_crypto.go:400-433 | so do whole messages of whole blocks |
| Cipher.DecryptQRC | internal/providers/qqmusic_crypto.go:400-433 | which inputs are refused and why, and that everything else is the inflated plain text, zlib before raw |
| Evaluation.DecideIsBetter | internal/storage/merger.go:929-951 | the decision tree is the lexicographic comparison of quality and age, the target winning ties |
| Evaluation.EvaluateParallel | internal/storage/merger.go:892-927 | however the goroutines interleave, every candidate is judged once and as if alone |
| Evaluation.Split | internal/storage/merger.go:905-917 | the shares are consecutive and cover every candidate |
| Merger.MergeIsPointwise | internal/storage/merger.go:485-649 | under every key a merge is the pointwise join of target and source: for the quality strategy, the lexicographic maximum |
| Merger.PlanDoesNotMatter | internal/storage/merger.go:527-530 | plan, ranges, chunks and row order make no difference to what any key or any old row holds, or to which rows are new |
| Merger.MergeTwice | internal/storage/merger.go:485-649 | a second merge of the same source changes nothing exactly when no source row has a NULL source column |
| Merger.NullSourceTwice | internal/storage/merger.go:485-649 | a source row with a NULL source column that is there twice after two merges |
| Merger.MergeKeepsUnique | internal/storage/merger.go:568-573 | no two rows ever share file name and source |
| Merger.SourcesCommute | internal/storage/merger.go:396-426 | the order of two sources does not change the quality and age under a key, and nothing gets worse |
| Merger.CountedPartition | internal/storage/merger.go:627-646 | every source row is new or counted exactly once as upgraded, same or lower |
| MergeRun.PickedSuffice | internal/storage/merger.go:768-790 | the rows the conflict query leaves out would have changed nothing |
| MergeRun.RangeIsNext | internal/storage/merger.go:825-848 | a range read from the half-merged target is the next range of the original one |
| MergeRun.Merge.ResolveByQuality | internal/storage/merger.go:749-890 | all ranges together give every target row the better of the two, with exact counts, driven from either side |
| MergeRun.Merge.ResolveByUpdate | internal/storage/merger.go:651-747 | the same for the strategies that update in SQL |
| MergeRun.Merge.InsertNew | internal/storage/merger.go:557-622 | every source row without a conflict is inserted once under a new id, and the rows examined add up with and without gaps in the row ids |
| MergeRun.Merge.MergeSource | internal/storage/merger.go:485-649 | the whole run is a merge in that sense, and every statistic is the exact number of rows it names |
| MergeRun.CountedAll | internal/storage/merger.go:627-646 | examined rows are inserted, upgraded, same and lower ones together |
| TtmlTime.TimeRoundTrip | internal/parsers/ttml.go:729-737 | a written time stamp reads back as the time, a negative one as zero |
| Ttml.WriteSyllabus | internal/parsers/ttml.go:1046-1071 | the buffer of background syllables is flushed so that each run of them sits in one wrapper and the order is kept |
| Ttml.StampReads | internal/parsers/ttml.go:332-356 | the timing a writer states is the one the reader takes, but for syllable, which is read as word |
| Ttml.WriteBody | internal/parsers/ttml.go:1007-1108 | the loop that collects lines writes one division for each run of neighbouring lines of the same part, in order |
| Ttml.ReadBody | internal/parsers/ttml.go:548-712 | the lines of all divisions in order, each with the number, singer and translations of its own, in every timing mode, and one part for each division, with its name and its stated or inferred bounds |
| TtmlRoundTrip.ParagraphSeen | internal/parsers/ttml.go:144-191 | what the reader sees of written syllables: each timed span once, inside or outside a wrapper as it was, with its own trailing space and its neighbour's leading one |
| TtmlRoundTrip.SyllabusRoundTrip | internal/parsers/ttml.go:622-680 | the syllables of a line come back exactly when all have non-negative times and start with a visible character |
| TtmlRoundTrip.LineRoundTrip | internal/parsers/ttml.go:596-711 | in every timing mode a line comes back exactly when its singer does, its times are not negative (zero in a document without timing), and its text, or timed by word its syllables, come back, a line at zero having syllables at zero; and what it then comes back as |
| TtmlRoundTrip.LineAtZeroMoves | internal/parsers/ttml.go:681-688 | a line at zero with a later syllable that does not come back |
| TtmlRoundTrip.SyllablesNotWritten | internal/parsers/ttml.go:1046-1071 | a line of a response of type syllable whose syllables do not come back |
| TtmlRoundTrip.LeadingSpaceMoves | internal/parsers/ttml.go:622-680 | syllables with a leading space that do not come back |
| TtmlRoundTrip.BodyRoundTrip | internal/parsers/ttml.go:1007-1108 | all lines come back exactly when each does, numbered by their parts, and then neighbours share a part index exactly when they shared a part |
| TtmlParts.PartsRoundTrip | internal/parsers/ttml.go:1017-1033 | whatever the lines are, each run of lines of the same part comes back as one numbered part with its written name and bounds, negative ones clamped |
| TtmlParts.PartsAgain | internal/parsers/ttml.go:839-864 | lines numbered by their parts, with the parts that were read, make the same runs, names and bounds again |
| TtmlParts.SecondTrip | internal/parsers/ttml.go:548-712 | a document whose lines come back, once written from what was read and read again, gives exactly the same lines, parts and duration |
| Kpoe.NestFlatLyrics | internal/parsers/kpoe.go:21-78 | the pointer-driven loop nests segments by groups, each with the spread of its times |
| Kpoe.GroupedKeeps | internal/parsers/kpoe.go:50-77 | grouping neither loses nor moves a segment, and only the last of a group ends the line |
| KpoeParts.NormalTwice | internal/parsers/kpoe.go:80-168 | normalising is idempotent |
| KpoeParts.NormalParts | internal/parsers/kpoe.go:115-168 | old parts stay, each new part spans exactly its lines, and every line points to a part of its name |
| KpoeVersions.Response.Normalize | internal/parsers/kpoe.go:80-168 | the in-place rewriting computes the normal form |
| KpoeVersions.FillSpans | internal/parsers/kpoe.go:137-163 | collecting bounds in a map and filling them in, in any order, gives every new part the spread of its lines |
| KpoeVersions.V1ToV2 | internal/parsers/kpoe.go:170-268 | upgrading is regrouping followed by normalising |
| KpoeVersions.V2ToV1 | internal/parsers/kpoe.go:270-358 | downgrading spreads every line over its syllables |
| KpoeRoundTrip.WordRoundTrip | internal/parsers/kpoe.go:170-358 | there and back, the segments are exactly the canonical ones |
| KpoeRoundTrip.SegmentsKept | internal/parsers/kpoe.go:170-358 | canonical segments keep time, duration, text and background flag, and take key, singer and song part from the head of their group |
| KpoeRoundTrip.EndingsKept | internal/parsers/kpoe.go:326-346 | line endings come back exactly when they are 0 or 1 and the last is 1 |
| KpoeRoundTrip.ReturnsOnce | internal/parsers/kpoe.go:170-358 | going there and back a second time changes nothing more |
| KpoeRoundTrip.LineRoundTrip | internal/parsers/kpoe.go:301-311 | line-synced segments come back as line endings without their background flag |
| KpoeRoundTrip.BackgroundLost | internal/parsers/kpoe.go:301-311 | a background segment that comes back as a foreground one |
| Env.EncodeEnvValue | internal/accountmgr/account_store.go:630-654 | the loop writes the escaped value, in quotes exactly when it needs them |
| Env.LetterPass | internal/accountmgr/account_store.go:622-624 | a global replacement of one escaped letter advances every value by exactly that letter |
| Env.EscapeRoundTrip | internal/accountmgr/account_store.go:621-654 | five global replacements turn every escaped value back, but for letters n, r, t behind a backslash |
| Env.SpoiledIs | internal/accountmgr/account_store.go:621-628 | a value comes back unchanged exactly when no backslash is directly followed by one of them |
| Env.BackslashBeforeLetter | internal/accountmgr/account_store.go:621-628 | what a backslash before an n comes back as |
| EnvFile.LineReads | internal/accountmgr/account_store.go:591-654 | behind a readable key every value is read back, quoted ones up to spoiled letters and bare ones up to white space around them |
| EnvFile.BadKeyLost | internal/accountmgr/account_store.go:591-617 | a key that is empty, untrimmed, holds an equals sign, starts a comment or starts with export is never read back as itself |
| EnvFile.LineRoundTrip | internal/accountmgr/account_store.go:591-654 | reading key=encoded value gives both back exactly for readable keys with clear quoted values or trimmed bare ones |
| EnvFile.OneLine | internal/accountmgr/account_store.go:630-654 | no value ever breaks its line |
| EnvFile.Store.Set | internal/accountmgr/account_store.go:579-589 | the first line of the key, whatever its case, is replaced, or a line is added; the lines stay in step with what they are read as |
| EnvFile.Store.Load | internal/accountmgr/account_store.go:375-387 | every key gets the value of the last line that names it, and every line carries the key it is read as |
| EnvFile.SetThenLoad | internal/accountmgr/account_store.go:579-589 | what a key reads back as after it is set to any value: what a later line of the key says, else the image of the new value |
| EnvFile.OthersAfterSet | internal/accountmgr/account_store.go:579-589 | every other key reads back as what the lines left in place say: its old value when the keys fold differently, and without the overwritten line when they differ in case only |
| EnvFile.CaseOverwrites | internal/accountmgr/account_store.go:579-589 | a key whose only line is overwritten by one that differs in case and that is gone afterwards |
| EnvFile.LaterLineWins | internal/accountmgr/account_store.go:579-589 | two lines of one key for which setting it has no effect |
| EnvFile.SaveThenSplit | internal/accountmgr/account_store.go:568-574 | saving and loading keeps all lines and adds an empty one |
| Levenshtein.LevenshteinDistance | internal/similarity/similarity.go:67-99 | two swapped rows over the shorter string compute the edit distance |
| Levenshtein.DistIsLeast | internal/similarity/similarity.go:67-99 | no edit script is cheaper than the distance |
| Levenshtein.DistIsReached | internal/similarity/similarity.go:67-99 | some edit script is as cheap |
| Levenshtein.Symmetric | internal/similarity/similarity.go:80-82 | swapping the strings is harmless |
| Levenshtein.Bounds | internal/similarity/similarity.go:67-99 | at least the difference of the lengths and at most the longer one |
| Levenshtein.Triangle | internal/similarity/similarity.go:67-99 | the triangle inequality |
| Levenshtein.LevenshteinNorm | internal/similarity/similarity.go:108-119 | between 0 and 1, and 1 for equal strings only |
| Levenshtein.TitleEditTerm | internal/similarity/similarity.go:430-434 | one minus the distance over the longer length in bytes, and 0 for two empty titles; between 0 and 1, 1 for equal titles only, and never below the quotient by characters |
| MemCache.MemoryCache.Get | internal/storage/memcache.go:65-90 | a hit is the entry last accepted for the key, unexpired, and becomes the newest; an expired one is dropped; the byte counter stays exact |
| MemCache.MemoryCache.Set | internal/storage/memcache.go:92-126 | the new entry is the newest, the longest run of newer entries that leaves room stays, the list's own eviction never fires, the byte counter stays exact |
| MemCache.KeptIsSuffix | internal/storage/memcache.go:109-120 | what stays is a run of the newest entries, leaves room, and is the longest such run |
| MemCache.AddedFits | internal/storage/memcache.go:124-125 | with room for one more key, adding evicts nothing |
| MemCache.MemoryCache.Shed | internal/storage/memcache.go:137-168 | expired entries go first, then the older half of the rest |
| CacheRuns.ResidentFaithful | internal/storage/memcache.go:65-168 | after any sequence of lookups, stores and sheddings every key is resident at most once, with the entry last stored under it, in the order in which the keys were last asked for or stored |
| CacheRuns.EvictsLeastRecent | internal/storage/memcache.go:109-125 | every key that a store evicts was last used before every other key that stays |
| RateLimiter.Limiter.Allow | internal/api/middleware/middleware.go:333-391 | under a monotone clock every answer is the one an unpruned limiter gives to the key's own requests |
| RateLimiter.KeyPruned | internal/api/middleware/middleware.go:343-358 | pruning forgets only keys whose window is over |
| RateLimiter.TwiceTheLimit | internal/api/middleware/middleware.go:360-391 | no interval of one window length admits more than twice the limit of a key |
| RateLimiter.RetryAdvice | internal/api/middleware/middleware.go:379-386 | waiting the advised seconds is enough exactly when they are not rounded down |
| RateLimiter.RetryTooSoon | internal/api/middleware/middleware.go:379-386 | a client that waits as told and is refused again |
| WriteQueue.StepKeeps | internal/storage/writequeue.go:47-125 | every step of submitters, workers and Close keeps the queue invariant |
| WriteQueue.Conservation | internal/storage/writequeue.go:76-112 | accepted jobs are finished, in hand, queued or shed, and the queue stays within its capacity |
| WriteQueue.FinishedInOrder | internal/storage/writequeue.go:47-74 | with one worker finished jobs are a subsequence of the accepted ones |
| WriteQueue.VictimIsOldest | internal/storage/writequeue.go:96-103 | a shed job was accepted before every job that stays queued |
| WriteQueue.ClosedForGood | internal/storage/writequeue.go:114-125 | nothing is sent after closing, and a drained queue has finished or shed everything it accepted |

## Left out

- The similarity functions, the normalisation of text, folding for case-insensitive comparison, capitalising, JSON, XML and float lexing, hex decoding and inflating are arbitrary functions.
- Real arithmetic is exact; IEEE rounding is not modelled.  Integers do not overflow; in particular the doubling cooldown and nanosecond sums are unbounded.
- Strings are sequences of characters; invalid UTF-8 is not modelled.  Where the code counts bytes, the UTF-8 length is used.
- Alignment.AlignTokensToQQ: the two cost and operation tables are one table of cells, and the ghost path is an output of the model only.
- Syllabus.AnchorRun: a leftover may be used again in another gap, as in the code; within one run it is used once.
- WordSync.SyncLine: a merged part's trailing hyphen rule means that the text is kept up to spaces.
- SongSync.SyncSong: the line offset, the word or syllable mode and the pool are parameters; metadata, elements and translations are carried along by the code and not modelled.
- Race.StepKeeps: source names are distinct (duplicates share one result slot, internal/orchestrator/race.go:334-337); the text of errors, latencies and logs are not modelled; neither is a fetch outside a race, which holds no permit yet and waits for one (TryFetch, internal/orchestrator/race.go:155-188).
- Limiter.ReachableInv: waiting is a refusal that may come at any time; fairness is not modelled.
- Breaker.RunSound: the clock is a parameter of every event and does not run backwards.
- Merger.MergeIsPointwise: no SQL error, no cancelled context, positive target ids, unique keys on both sides; attaching, pragmas, indexes and full-text search are not modelled.
- Ttml.ReadBody: the head of the document is not modelled: the texts of translations by line key and the agent a singer is found under are parameters (a transliteration with syllables counts as one text); elements and attributes are found by local name.
- TtmlTime.TimeRoundTrip: plain decimals are read exactly; results that are infinite or not a number are left out.
- KpoeVersions.V1ToV2: tool names, cache labels and other metadata are carried along by the code and not modelled.
- EnvFile.Store.Load: from values to accounts is not modelled.
- MemCache.MemoryCache.Get: entries are values, so changes by a caller who keeps a pointer are not modelled.
- RateLimiter.Limiter.Allow: the hash that picks a shard is arbitrary, and the two clocks the code reads agree.
- WriteQueue.StepKeeps: a panicking job counts as finished, and callbacks are not modelled.
- HTTP handling, token fetching, proxying, DNS, Google Drive, SQLite itself, configuration, logging, metrics and the command line are input and output around these parts.
- The store's own cache, catalogue sorting, song matching, file name parsing and title analysis make no promise strong enough to state.
