# Tài/Xỉu prediction engine, modelled in Dafny

This project models the prediction engine of a small Tài/Xỉu ("High/Low")
prediction service, `index.js`. The model takes a history of outcomes and
predicts the next one. It does so in four stages:

- **`predict`, the entry point.** It refuses a history shorter than 20
  results. It builds 20 deterministic *pattern samples* from the whole
  history. It runs five models twice each, once on the last 20 results and
  once on the last 50. The ten predictions then vote. The answer is Tài, Xỉu
  or "undetermined", with a confidence in percent.
- **The sample generator, `generatePatternSamplesDeterministic`.** It mines
  the history's windows of 5, 4 and 3 results into an insertion-ordered
  dictionary and ranks them by `total × |taiNext − xiuNext|`. It then fills
  exactly 20 samples, stage by stage:
  - the top 12 windows;
  - the 3 longest runs found by `detectRuns`;
  - the first 2 alternations found by `detectAlternations`;
  - a fixed canonical list of 8 motifs;
  - padding taken from the last 20 results.
- **The five models.**
  - Model 1: pattern checks on the last 6 results.
  - Model 2: a rolling frequency band table.
  - Model 3: a first-order Markov chain.
  - Model 4: n-gram matching.
  - Model 5: a weighted heuristic score.

A history is a sequence of `Token`s: `Tai`, `Xiu` or `Blank`. `Blank` stands
for the empty string the service produces for a record without a result. The
source compares results as strings joined with `-`. Under this three-token
domain that comparison is sequence equality, and `includes` and the regular
expression tests become tests for a contiguous occurrence (`Contains`). Joins
of different lengths never collide: a 3-token join has two dashes and a
4-token join has three.

The modules follow the source:

| module | file | contents |
|---|---|---|
| `Outcomes` | `outcomes.dfy` | tokens, counts, slicing and rounding |
| `StableSort` | `stable_sort.dfy` | the engine's stable descending sort |
| `WindowTable` | `window_table.dfy` | the window dictionary and its ranking |
| `Motifs` | `motifs.dfy` | runs and alternations |
| `SampleGenerator` | `sample_generator.dfy` | the 20 samples |
| `Predictors` | `models.dfy` | the five models |
| `Ensemble` | `predict.dfy` | `predict` and the vote |

Each part of the source that works with loops is a `method` with those loops:

- the window counting;
- the sample stages;
- the run and alternation scans;
- the Markov counters;
- the n-gram dictionary;
- the first-match scan of Model 5;
- the ten-run loop of `predict`.

Each such method is proved equal to a specification function, and the
properties are proved about those functions.

Two behaviours of the code are easy to misread, and the model keeps both:

- **Blank votes.** Model 1's run branch returns the window's last token, and
  that token can be Blank (index.js:216). A Blank vote counts for neither
  side, so a tie can be 4–4 at 40% as well as 5–5 at 50%.
- **The 3-gram retry in Model 4.** Once the window has at least 5 results,
  every key of the n-gram dictionary has 4 tokens. The retry looks up a
  3-token key, so it never finds an entry (`NgramShorterMisses`), and the
  prediction falls through to the samples' majority.

## Model

| member | source | states |
|---|---|---|
| Outcomes.Flip | index.js:173 | the opposite token: never Blank, differs from a Tai/Xiu input, and is Tai exactly when the input is not Tai (a Blank flips to Tai) |
| Outcomes.Count | index.js:64-65 | `filter(x => x === t).length` (also the Tai count at index.js:239): never more than the length; `CountPartition` and `CountAppend` state how counts combine |
| Outcomes.CountPartition | index.js:64-65 | the Tai, Xiu and Blank counts of a sequence add up to its length |
| Outcomes.Suffix | index.js:35-36 | `slice(-k)` is the last min(k, length) elements |
| Outcomes.Slice | index.js:149 | `slice(a, b)` with both ends clamped; inside the bounds it is the plain subsequence |
| Outcomes.RoundPercent | index.js:240 | `Math.round(part / whole * 100)` on exact rationals: at most 100 when part ≤ whole, within half a unit of 100·part/whole, halves rounded up |
| Outcomes.Contains | index.js:206-218 | `includes` and the regular-expression tests on '-'-joined strings: some position of the window starts a contiguous copy of the motif |
| Outcomes.TaiLeads | index.js:323 | `samples.filter(s => s.next === 'Tài').length` (also index.js:223 and 312): never more than the number of samples |
| Outcomes.SampleMajority | index.js:223-224 | the sample fallback is Tai exactly when at least half of the samples lead to Tai; it is never Blank |
| StableSort.SortDesc | index.js:105 | the sorted list is a permutation of its input (same multiset, same length) |
| StableSort.SortDescSorted | index.js:105 | the sorted list is non-increasing in the key |
| StableSort.SortDescStable | index.js:105 | for every key value, the elements with that key keep their input order |
| StableSort.WithKeyMember | index.js:105 | an element is among those selected for key v iff it is in the list and its key is v |
| StableSort.WithKeyIncreasing | index.js:105 | selecting the elements of one key keeps a list that is in strictly increasing position in that order |
| StableSort.EqualKeysIncreasing | index.js:105 | when the elements of every key are in increasing position, any two elements with equal keys are in increasing position, so none appears twice |
| WindowTable.OccurrenceAt | index.js:90-92 | entry i of the scan of windows of length n is the window starting at i, with the token after it |
| WindowTable.Bump | index.js:94-95 | one more occurrence: `total++`, and the follower's counter when the follower is Tai or Xiu; `RecordEffect` and `IndexFacts` state the result |
| WindowTable.Record | index.js:93-95 | one occurrence: a new key is added at the end of the insertion order, then its counters are bumped; `RecordEffect` states the effect |
| WindowTable.RecordEffect | index.js:93-95 | recording adds one to the key's total, leaves every other key and its counters as they were, and extends the insertion order by that key or not at all |
| WindowTable.Index | index.js:88-97 | the dictionary after recording a list of occurrences from left to right; `IndexFacts` and `FirstSeenPrefix` state what it holds |
| WindowTable.IndexFacts | index.js:93-95 | the dictionary's keys are distinct; a key is present iff it occurs; its counters are its occurrences and how many of them Tai and Xiu follow |
| WindowTable.FirstSeenPrefix | index.js:93 | insertion order is first-seen order: the keys met in a prefix of the scan form a prefix of the key order |
| WindowTable.BuildWindowIndex | index.js:88-97 | the nested loops over sizes 5, 4, 3 build exactly the dictionary of all occurrences |
| WindowTable.RecordWindows | index.js:90-96 | the inner loop extends the dictionary by the occurrences of one size |
| WindowTable.RecordWindow | index.js:93-95 | one step adds a new key at the end of the insertion order and bumps its total, and the follower's counter when the follower is Tai or Xiu |
| WindowTable.AllOccurrencesCount | index.js:89-96 | a key of length 3 to 5 is counted once per history position where it occurs with a follower, and once per such position followed by a given token |
| WindowTable.FollowedPartition | index.js:95 | a window is followed by Tai or Xiu at most as often as it occurs |
| WindowTable.Entries | index.js:100-104 | `Object.entries(windows).map(...)`: one row per key with its counters, the i-th row for the i-th key of the insertion order |
| WindowTable.Score | index.js:103-105 | the sort key total × \|taiNext − xiuNext\| is never negative, and is zero iff the window never occurs or Tai and Xiu follow it equally often |
| WindowTable.WindowList | index.js:99-105 | the dictionary's rows in insertion order, stably sorted by `Score`, largest first; `WindowListFacts` states its properties |
| WindowTable.WindowListFacts | index.js:100-105 | each ranked row has its window's total (positive) and follower counts, with taiNext + xiuNext ≤ total; rows are a permutation of the dictionary's entries, non-increasing in total × \|taiNext − xiuNext\|, ties in first-seen order |
| WindowTable.WindowListAtLeastThree | index.js:89-90 | with at least 6 results, windows of length 5, 4 and 3 are all mined, so at least 3 rows exist |
| Motifs.RunEnd | index.js:168-169 | the inner scan stops at the end of the block of tokens equal to the first one |
| Motifs.RunNext | index.js:173 | a run's guess is the next token when it is non-Blank, else the opposite of the run's token; never Blank |
| Motifs.DetectRuns | index.js:164-180 | the nested while loops return the runs of the scan, sorted by length |
| Motifs.RunsFrom | index.js:166-177 | the runs the outer loop reports from position i on; `RunsFromSound`, `RunsFromComplete` and `RunsFromIncreasing` state what they are |
| Motifs.DetectedRuns | index.js:164-180 | the scan's runs stably sorted by length, longest first; `DetectedRunsFacts` states its properties |
| Motifs.RunsFromSound | index.js:167-177 | every reported run is a maximal block of at least 3 equal tokens, with its tokens and guess |
| Motifs.RunsFromComplete | index.js:167-177 | every maximal block of at least 3 equal tokens is reported |
| Motifs.RunsFromIncreasing | index.js:166-177 | the scan from i reports runs starting at i or later, in strictly increasing start position |
| Motifs.DetectedRunsPositionOrder | index.js:179 | after the sort, runs of equal length are still in strictly increasing start position |
| Motifs.DetectedRunsFacts | index.js:164-180 | `detectRuns` returns exactly the maximal runs of length ≥ 3, longest first, runs of equal length in strictly increasing position, so none is listed twice |
| Motifs.DetectedRunsGuess | index.js:173 | every run of `detectRuns` guesses Tai or Xiu |
| Motifs.AltAt | index.js:187 | `isAlt`: the window at i reads a, b, a, b with a ≠ b; `AlternationsFacts` states what it selects |
| Motifs.AltFound | index.js:186-192 | one round of the loop: the window at i with the opposite of its last token when `isAlt` holds, nothing otherwise; `AltFoundFacts` states it |
| Motifs.AltsBefore | index.js:185-193 | the alternations at start positions below m, in position order; `AltsSound`, `AltsComplete` and `AltsOrdered` state what they are |
| Motifs.Alternations | index.js:182-195 | the alternations over every start position up to length − 4; `AlternationsFacts` states its properties |
| Motifs.DetectAlternations | index.js:182-195 | the loop returns the alternations in position order |
| Motifs.CheckWindow | index.js:186-192 | the window at i is reported exactly when it reads a, b, a, b with a ≠ b, guessing the opposite of its last token |
| Motifs.AlternationsFacts | index.js:185-193 | position i is reported iff t[i]≠t[i+1], t[i]=t[i+2] and t[i+1]=t[i+3], with that window and the opposite of t[i+3]; positions increase |
| SampleGenerator.MatchSample | index.js:112-113 | the sample for one ranked window: its pattern, guessing Tai iff taiNext ≥ xiuNext; `MatchStageMeaning` states it |
| SampleGenerator.MatchSamples | index.js:111-113 | one match sample per ranked window, in order |
| SampleGenerator.MatchStage | index.js:110-114 | at most 12 match samples |
| SampleGenerator.RunSamples | index.js:118-119 | one run sample per run, with its tokens and guess |
| SampleGenerator.RunStage | index.js:117-120 | at most 3 run samples |
| SampleGenerator.AltSamples | index.js:124-125 | one alternation sample per alternation, with its window and guess |
| SampleGenerator.AltStage | index.js:123-126 | at most 2 alternation samples |
| SampleGenerator.CanonicalSamples | index.js:129-138 | the eight fixed motifs and their guesses; `CanonicalSamplesShape` states their shape |
| SampleGenerator.CanonicalSamplesShape | index.js:129-138 | there are eight canonical samples, each of the canonical kind, with a 4-token motif and a guess of Tai or Xiu |
| SampleGenerator.CanonicalStage | index.js:139-143 | canonical motifs never take the list past 20 |
| SampleGenerator.PadLimit | index.js:148 | the pad loop's bound is at least 1, and length − 3 once there are at least 4 tokens |
| SampleGenerator.PadNext | index.js:150-151 | a pad's guess is never Blank, and is the token 4 places on when that token exists and is not blank |
| SampleGenerator.PadSample | index.js:149-151 | the pad built at position idx; `PadSampleShape` states its shape |
| SampleGenerator.PadSampleShape | index.js:149-151 | a pad is of the pad kind, guesses Tai or Xiu, and holds the (possibly short) 4 tokens at idx: exactly those 4 when they exist |
| SampleGenerator.PadOne | index.js:149-151 | one round of the pad loop builds the specified pad |
| SampleGenerator.PadStage | index.js:146-153 | pads never take the list past 20; there are min(max(1, \|last20\| − 3), room) of them, the i-th built from window i of the last 20 results |
| SampleGenerator.GeneratePatternSamples | index.js:86-162 | the method's stages compute the specified sample list |
| SampleGenerator.TopWindowSamples | index.js:110-114 | the first loop takes the top min(12, rows) windows |
| SampleGenerator.AppendRunSamples | index.js:118-120 | the run loop appends one sample per run |
| SampleGenerator.AppendAltSamples | index.js:124-126 | the alternation loop appends one sample per alternation |
| SampleGenerator.FillFrom | index.js:139-143 | the canonical loop appends the list's first entries until 20 samples are held |
| SampleGenerator.PadFrom | index.js:146-153 | the pad loop appends pads until 20 samples are held, and nothing when 20 are already held |
| SampleGenerator.MatchStageKinds | index.js:110-114 | match samples are of the first stage and predict Tai or Xiu |
| SampleGenerator.RunStageKinds | index.js:117-120 | run samples are of the second stage and predict Tai or Xiu |
| SampleGenerator.AltStageKinds | index.js:123-126 | alternation samples are of the third stage and predict Tai or Xiu |
| SampleGenerator.CanonicalStageKinds | index.js:129-143 | canonical samples are of the fourth stage and predict Tai or Xiu |
| SampleGenerator.PadStageKinds | index.js:146-153 | pad samples are of the last stage and predict Tai or Xiu |
| SampleGenerator.PatternSamples | index.js:86-162 | the five stages concatenated and trimmed to 20; `PatternSamplesBound` and `PatternSamplesFacts` state its properties |
| SampleGenerator.PatternSamplesBound | index.js:155-156 | the trim leaves at most 20 samples |
| SampleGenerator.Untrimmed | index.js:108-153 | the five stages in order, before the trim; `UntrimmedOrder`, `UntrimmedPrefix` and `PatternSamplesCount` state its properties |
| SampleGenerator.PatternSamplesCount | index.js:140-156 | with at least 20 results, the stages fill exactly 20 samples, so the final trim drops nothing |
| SampleGenerator.UntrimmedOrder | index.js:108-153 | the stages never interleave, and every sample predicts Tai or Xiu |
| SampleGenerator.UntrimmedPrefix | index.js:110-114 | the match samples open the list |
| SampleGenerator.PatternSamplesFacts | index.js:86-162 | with at least 20 results: exactly 20 samples, match samples first, stages in order, every sample predicts Tai or Xiu |
| SampleGenerator.MatchStageMeaning | index.js:111-113 | the i-th match sample is the i-th ranked window, predicting Tai iff taiNext ≥ xiuNext, else Xiu |
| Predictors.AgainstLast | index.js:207 | `endsWith('Tài') ? 'Xỉu' : 'Tài'`: Xiu exactly when the last token is Tai; never Blank |
| Predictors.PatternAnalysis | index.js:200-226 | Model 1 returns Blank only when the window's last token is Blank |
| Predictors.PatternAnalysisLocal | index.js:201 | Model 1 depends on nothing but the window's last 6 tokens |
| Predictors.PatternAnalysisConstant | index.js:215-216 | when the last 6 tokens are all Tai (or all Xiu), the run is predicted to continue |
| Predictors.PatternAnalysisAlternation | index.js:206-207 | when the last 5 tokens alternate between Tai and Xiu, the prediction is the opposite of the last token |
| Predictors.PatternAnalysisBlankVote | index.js:215-216 | the run branch returns Blank for the window Xiu, Xiu, Tai, Tai, Tai, Blank |
| Predictors.NotInConstant | index.js:206-218 | a constant window contains no pattern that has another token in it |
| Predictors.TaiPercent | index.js:238-240 | the rounded Tai share is at most 100 |
| Predictors.FrequencyAnalysis | index.js:236-256 | Model 2 never returns Blank |
| Predictors.FrequencyBands | index.js:246-256 | Tai iff the rounded share is below 45 or in [50, 55]; Xiu iff it is in [45, 50) or above 55 |
| Predictors.FrequencyOnCounts | index.js:240-254 | on counts before rounding: ≥ 70% Tai gives Xiu, ≤ 30% gives Tai, exactly half gives Tai |
| Predictors.Step | index.js:270-274 | one adjacent pair is counted in the row of its first token; `TransitionsRows` states the result |
| Predictors.TransitionsOf | index.js:268-275 | the four counters over every adjacent pair, left to right; `TransitionsRows` and `TransitionsTotal` state what they count |
| Predictors.TransitionsTotal | index.js:268-275 | the four counters add up to the number of adjacent pairs, max(0, length − 1) |
| Predictors.TransitionsRows | index.js:268-275 | every adjacent pair is counted once: TT + TX is the number of Tai before the last token, XT + XX the rest |
| Predictors.TransitionsConstant | index.js:268-275 | in a constant Tai window all pairs are TT; in a constant Xiu window all are XX |
| Predictors.PSelf | index.js:276-277 | the self-transition probability lies in [0, 1] and is at least 0.5 iff the self count is at least the flip count (0.5 when unseen) |
| Predictors.ShareAtLeastHalf | index.js:276-277 | same / (same + other) is in [0, 1] and at least one half iff same ≥ other |
| Predictors.MarkovPrediction | index.js:264-279 | Model 3 never returns Blank |
| Predictors.MarkovOnCounts | index.js:276-279 | after Tai: Tai iff TT ≥ TX; after anything else: Xiu iff XX ≥ XT (an unseen state continues) |
| Predictors.MarkovConstant | index.js:264-279 | a constant Tai window predicts Tai, and a constant Xiu window predicts Xiu |
| Predictors.CountTransitions | index.js:268-275 | the counting loop computes the four transition counters |
| Predictors.MarkovChain | index.js:264-282 | the method computes Model 3's prediction |
| Predictors.NgramSize | index.js:286 | n is 3 or 4, and 4 for every window of at least 5 results |
| Predictors.NgramPrediction | index.js:285-316 | Model 4 never returns Blank |
| Predictors.CountFollower | index.js:294-295 | one more occurrence: the total grows by one, and the Tai and Xiu followers by at most one together |
| Predictors.NgramTable | index.js:289-296 | the n-gram dictionary after the positions before m; `NgramKeys` and `NgramCounts` state what it holds |
| Predictors.Lean | index.js:300-310 | an entry's lean is Tai or Xiu, never Blank |
| Predictors.NgramKeys | index.js:289-296 | a key is in the n-gram dictionary iff it has n tokens and occurs at a position with a follower |
| Predictors.NgramCounts | index.js:289-296 | the counters of a key in the dictionary are its occurrences with a follower, and how many of them Tai and Xiu follow |
| Predictors.NgramEntry | index.js:289-296 | a key is in the n-gram dictionary iff it is an n-gram occurring with a follower; its counters are the numbers of such occurrences followed by Tai, by Xiu, and in all |
| Predictors.NgramShorterMisses | index.js:306-307 | with n = 4 the 3-token retry never finds an entry |
| Predictors.NgramOnPositions | index.js:285-316 | Tai iff, when the last n tokens occurred earlier with a follower, Tai followed them at least as often as Xiu, and otherwise at least half the samples lead to Tai |
| Predictors.FollowersWithin | index.js:294-295 | Tai and Xiu followers together are at most the occurrences |
| Predictors.NgramSingleMatch | index.js:300-302 | when the last n tokens occurred exactly once before, followed by Tai or Xiu, that follower is predicted |
| Predictors.NgramMatching | index.js:285-318 | the method with its dictionary-building loop computes Model 4's prediction |
| Predictors.Fraction | index.js:323-324 | a share of a non-empty list lies in [0, 1] |
| Predictors.MarkovFavor | index.js:338 | the Markov favour lies in [0, 1] |
| Predictors.FirstMatchFrom | index.js:343-351 | the first position (≤ length − 5) whose 4 tokens equal the last 4: a match with none before it, or none at all |
| Predictors.NgramFavor | index.js:343-351 | the n-gram favour is 1, 0 or 0.5, and 0.5 exactly when no earlier position matches the last four tokens |
| Predictors.Heuristic | index.js:321-354 | Model 5 never returns Blank |
| Predictors.HeuristicScore | index.js:323-353 | the weighted sum 0.4 × sample share + 0.3 × Markov favour + 0.2 × Tai share + 0.1 × n-gram favour; `HeuristicScoreBounds` states its range |
| Predictors.HeuristicScoreBounds | index.js:353 | the weighted score lies in [0, 1] |
| Predictors.HeuristicUnanimous | index.js:353-354 | all samples leading to Tai and an all-Tai window give Tai; no sample leading to Tai and no Tai token give Xiu |
| Predictors.HeuristicEnsemble | index.js:321-358 | the method with its counting loop and break-on-first-match scan computes Model 5's prediction |
| Ensemble.ShortWindow | index.js:35 | `history.slice(-20)`; `WindowsAreTails` states what it is |
| Ensemble.LongWindow | index.js:36-56 | `last50` when it has at least 20 results, else the whole history; `WindowsAreTails` states what it is |
| Ensemble.WindowsAreTails | index.js:35-56 | the short window is the last min(20, n) results; the long one is a tail of 20 to 50 results once n ≥ 20, and the whole history below that |
| Ensemble.Votes | index.js:51-61 | exactly ten votes, from all five models |
| Ensemble.ModelPrediction | index.js:42-48 | model k for k = 1 to 5; models 2 to 5 never vote Blank |
| Ensemble.RunModel | index.js:42-48 | running model k gives model k's prediction |
| Ensemble.CastVotes | index.js:51-61 | the loop yields model 1 short, model 1 long, …, model 5 long |
| Ensemble.CastModelVotes | index.js:54-58 | one round appends model k's short-window and long-window votes to those of models 1 to k − 1 |
| Ensemble.VotesUpTo | index.js:54-60 | models 1 to k give 2k votes, each model's short-window vote before its long-window vote |
| Ensemble.VotesPrefix | index.js:54-60 | the votes of models 1 to k open those of models 1 to j for k ≤ j |
| Ensemble.VotesBlankUpTo | index.js:54-60 | at most two of the votes of models 1 to k are Blank |
| Ensemble.Decide | index.js:67-69 | undetermined iff the two counts are equal; Tai only with more Tai votes, Xiu only with more Xiu votes |
| Ensemble.Tally | index.js:63-70 | always a verdict over all the votes; the Tai count, the Xiu count and the Blank votes add up to the number of votes; confidence at most 100 |
| Ensemble.Ensemble | index.js:20-83 | a verdict always counts the ten votes of five models on two windows, over at most 20 samples; `EnsembleGuard` and `EnsembleVerdict` state the rest |
| Ensemble.Predict | index.js:20-83 | the method computes `predict`'s answer |
| Ensemble.EnsembleGuard | index.js:25-32 | the answer is "not enough data" iff the history has fewer than 20 results |
| Ensemble.LongWindowFacts | index.js:56 | past the guard the long window is the last min(50, n) ≥ 20 results and the fallback to the whole history is never taken; the short window has 20 |
| Ensemble.VotesBlank | index.js:64-65 | only model 1 can cast a Blank vote, so at most 2 votes are Blank and at least 8 go to Tai or Xiu |
| Ensemble.TallyVerdict | index.js:64-70 | for ten votes with at most 2 Blank: Tai iff voteTai > voteXiu, Xiu iff voteXiu > voteTai, undetermined iff equal; 8 ≤ voteTai + voteXiu ≤ 10; confidence = 10 × max, between 40 and 100 |
| Ensemble.EnsembleVerdict | index.js:64-70 | past the guard: 10 votes over 20 samples; Tai iff voteTai > voteXiu, Xiu iff voteXiu > voteTai, undetermined iff equal; 8 ≤ voteTai + voteXiu ≤ 10; confidence = 10 × max, between 40 and 100 |
| Ensemble.EnsembleTie | index.js:67-70 | a tie with no Blank vote is 5 against 5 at confidence 50 |

## Left out

- Fetching the data (`fetchData` over axios, index.js:9-17), the Express routes and building the response are network and HTTP I/O. The model starts from the decoded list of results.
- Decoding each record: the field aliases, `trim`, and the choice between `Lich_su_phien` and `history` (index.js:22-23) are library calls on untyped records. Results other than "Tài", "Xỉu" and the empty string are outside the model.
- The `console.log` of the sample counts (index.js:159-160) is a logging side effect.
- The explanation texts are left out: each model's `explanation`, the sample-support percentages used only in them (index.js:228-230, 258-259), the summary string, and `buildAiTongHopExplanation`. They are string formatting of float-rounded numbers. A `Verdict` carries the vote counts and totals the summary is made from.
- A `sampleCount` other than 20, with its float quotas 0.6, 0.15 and 0.1, is left out. `predict` is the only caller and always passes 20.
- An accuracy scoreboard is not part of this model; `index.js` has none.
- Predictors.Heuristic: the score is exact real arithmetic. The source's double-precision sum can differ in the last bit, so at a score within rounding error of 0.5 the two may disagree.
- Predictors.TaiPercent: `Math.round` is applied to the exact rational 100·tai/total. The source rounds a double. When the exact share lies exactly half way between two whole percentages, the double can fall on either side of the half, so the two may round differently.
- Outcomes.RoundPercent: the confidence uses the same exact rounding. With ten votes the exact value is 10 × max, an integer, so nothing is lost.
- StableSort.SortDesc: `Array.prototype.sort` sorts the list in place. The model sorts a value with a stable insertion sort and proves the three facts that determine the result: non-increasing, a permutation, and equal keys in input order. The in-place update is not modelled.
