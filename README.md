# QOG reflection scoring, insights and task state — a Dafny model

QOG is a chat workspace. A user works on a task with an AI assistant,
answers reflection questionnaires afterwards, and reads a dashboard of
insights about their reasoning. This project models the part of the
system that decides what those numbers and lists are, and proves what they
mean:

- **Scoring.** Each stored answer is normalised to a 0–100 score. A scale
  answer is placed between the scale's bounds and flipped when the
  question is reverse scored. A choice answer scores the share of selected
  options that are positive. The dashboard counts an option as positive
  when it contains `(+1`; the backend counts any option containing `+1`.
  A record's breakdown combines the
  Likert mean and the multiple-choice mean. The backend
  (`compute_reflection_score` in `app.py`) and the dashboard
  (`computeScore` in `ClarityDashboard.tsx`) each have a scorer. Both are
  modelled (`Scoring.Backend`, `Scoring.Dashboard`). The model proves the
  conditions under which they agree and exhibits the inputs on which they
  do not.
- **Insights.** The dashboard computes:
  - per-domain summaries;
  - the strongest and weakest domain;
  - the prompt hack for the weakest domain;
  - the radar's five strongest domains;
  - the gauge zone and the week-over-week delta;
  - the weekly statistics;
  - the iteration histogram;
  - the duration texts.
- **Task transcript (backend).** The `Task` class covers:
  - message normalisation and message ids;
  - appending messages and counting iterations;
  - duration and completion;
  - the rollback after a failed model call;
  - the context window sent to the model;
  - cursor pagination of messages.
  The model also covers the user helpers (`sanitize_user`,
  `find_user_by_email`) and `load_results`.
- **Client state.** `App.tsx` holds the task list: payload normalisation,
  ordering by last activity, upsert and the optimistic send. The model
  also covers:
  - the baseline wizard's stages and defaults;
  - the reflection dialog;
  - the sidebar's texts and new-task form;
  - the sign-in and sign-up forms.

Code that works on values is modelled as functions and lemmas. The
loops in the source are methods proved equal to a specification function:
- `BuildDomainSummaries`, `BuildHistogram`, `ComputeReflectionScore` and
  `ComputeScore`;
- `NormalizeMessages`, `FindUserByEmail`, `LoadResults` and `FillDefaults`.

Objects and components whose state changes are classes with `modifies`
clauses: `Tasks.Task`, `TaskList.AppModel`, `Baseline.Wizard`,
`ReflectionModal.Modal`, `Sidebar.NewTaskForm`, `AuthForms.LoginForm` and
`AuthForms.SignupForm`.

Outside inputs are parameters:
- the clock is `now`;
- date parsing is `parse: string -> Option<int>`;
- the random hex of a new message id is `hex`;
- `task-<Date.now()>` is `fallbackId`;
- the random shuffle is the shuffled list itself;
- a failed save or request is `saveError`, `saveOk` or `reply == None`.

`QOG/backend/app.py` and `QOG-backup/backend/app.py` are identical. Rows
cite the first.

## Model

| member | source | states |
|---|---|---|
| Common.Trim | QOG/frontend/src/components/Sidebar.tsx:50 | `trim()` is empty exactly for a blank text, and a non-empty result starts and ends with a non-space |
| Common.ToLower | QOG/backend/app.py:274 | lower-casing keeps the length and maps each character |
| Common.NatToStringRoundTrip | QOG/src/App.tsx:83 | a number rendered in decimal reads back as the same number |
| Common.JsRound | QOG-backup/frontend/src/components/ClarityDashboard.tsx:544 | `Math.round` lands within half a unit of its argument |
| Common.Midpoint | src/components/BaselineWizard.tsx:12 | the rounded midpoint of a scale lies within half a unit of half the bounds' sum, and between the bounds (give or take a half) |
| Common.SplitMinutes | QOG/frontend/src/components/Sidebar.tsx:65-69 | whole minutes and remaining seconds recombine to the input, with seconds under 60 |
| Sorting.SortDesc | QOG-backup/frontend/src/components/ClarityDashboard.tsx:540 | the sort returns a rearrangement of its input: same length, same multiset |
| Sorting.SortDescCorrect | QOG/src/App.tsx:125-127 | the sort returns a permutation of its input ordered by non-increasing key |
| Scoring.PyFloat | QOG/backend/app.py:473-476 | Python's `float(value)` succeeds exactly on numbers |
| Scoring.JsNumber | QOG-backup/frontend/src/components/ClarityDashboard.tsx:99 | `Number(answer)` keeps a number, turns `null` into 0 and fails on a missing answer |
| Scoring.Clamp01 | QOG/backend/app.py:479 | the clamp lies in [0, 1], is the identity inside it and saturates outside it |
| Scoring.ReverseMarkerInPrompt | QOG-backup/frontend/src/components/ClarityDashboard.tsx:89-92 | a question text containing "reverse scored" in any letter case is reverse scored |
| Scoring.ReverseMarkerInTitle | QOG-backup/frontend/src/components/ClarityDashboard.tsx:89-92 | the same for a title containing the phrase |
| Scoring.ScaleFraction | QOG-backup/frontend/src/components/ClarityDashboard.tsx:101 | a scale answer's position is always in [0, 1] |
| Scoring.PositiveCount | QOG-backup/frontend/src/components/ClarityDashboard.tsx:115 | at most as many positives as selections, and all of them exactly when every selection is positive |
| Scoring.ChoiceScore | QOG-backup/frontend/src/components/ClarityDashboard.tsx:111-117 | a choice score is in [0, 100]: 0 with no selection, and 100 exactly when every selection is positive |
| Scoring.BackendNormalize | QOG/backend/app.py:464-495 | backend normalisation: scores in [0, 100]; Likert exactly for scale questions; a scale answer is dropped iff it is not a number or the bounds are equal; choice questions always score; other types never do |
| Scoring.DashboardNormalize | QOG-backup/frontend/src/components/ClarityDashboard.tsx:94-121 | dashboard normalisation: scores in [0, 100]; a scale answer is dropped iff it is not numeric or `max <= min`; choice questions always score; other types never do |
| Scoring.ScoresOfKind | QOG-backup/frontend/src/components/ClarityDashboard.tsx:127-133 | no more scores than answers, each in [0, 100] |
| Scoring.Breakdown | QOG-backup/frontend/src/components/ClarityDashboard.tsx:123-151 | the counts are the numbers of kept Likert and choice scores, none above the number of answers; a mean exists iff its count is positive; nothing kept gives overall 0 |
| Scoring.CombineMeans | QOG/backend/app.py:500-507 | the overall score is the average of both means, the one mean present, or 0 |
| Scoring.ComputeReflectionScore | QOG/backend/app.py:452-515 | the loop computes the backend breakdown of the record |
| Scoring.ComputeScore | QOG-backup/frontend/src/components/ClarityDashboard.tsx:123-151 | the loop computes the dashboard breakdown of the record |
| Scoring.MeanInRange | QOG/backend/app.py:497-498 | the mean of scores in [0, 100] is in [0, 100] |
| Scoring.BreakdownInRange | QOG/backend/app.py:497-515 | every breakdown's overall score and means lie in [0, 100]; the counts are the numbers of kept scores, and a mean exists iff its count is positive |
| Scoring.NothingScorableScoresZero | QOG/backend/app.py:506-507 | a record with nothing scorable has overall 0, no means and zero counts |
| Scoring.DroppedAnswerIgnored | QOG-backup/frontend/src/components/ClarityDashboard.tsx:128-130 | an answer that does not normalise leaves the breakdown unchanged |
| Scoring.BackendDropsUnscorable | QOG/backend/app.py:465-478 | the backend ignores unknown questions, non-numeric scale answers and equal scale bounds |
| Scoring.UnusableSelectionScoresZero | QOG/backend/app.py:486-492 | a choice answer without a usable selection adds one 0 to the choice scores and nothing to the Likert scores |
| Scoring.ChoiceFullIffAllPositive | QOG-backup/frontend/src/components/ClarityDashboard.tsx:115-117 | a non-empty choice answer scores 100 iff every selection is positive |
| Scoring.DashboardScaleMonotone | QOG-backup/frontend/src/components/ClarityDashboard.tsx:101-103 | a larger scale answer never scores less, or never more on a reverse-scored question |
| Scoring.DashboardScaleEndpoints | QOG-backup/frontend/src/components/ClarityDashboard.tsx:101-103 | the scale's ends score 0 and 100, swapped on a reverse-scored question |
| Scoring.BackendPositiveIsPlusOne | QOG/backend/app.py:483-484 | the backend marker test is `+1` containment and accepts everything the dashboard's `(+1` test accepts |
| Scoring.NormalizersAgree | QOG-backup/frontend/src/components/ClarityDashboard.tsx:94-121 | the two normalisers agree on an answer without the divergent cases |
| Scoring.BreakdownsAgree | QOG/backend/app.py:452-515 | on such records the backend and the dashboard compute the same breakdown |
| Scoring.StoredScorePrecedence | QOG-backup/frontend/src/components/ClarityDashboard.tsx:470 | preferring the stored backend score shows the same breakdown the dashboard would compute |
| Scoring.BareMarkerDisagreement | QOG/backend/app.py:484 | a bare `+1` option scores 100 in the backend and 0 in the dashboard |
| Scoring.InvertedScaleDisagreement | QOG/backend/app.py:477-479 | a scale with `max < min` is scored by the backend and dropped by the dashboard |
| Scoring.NullScaleAnswerDisagreement | QOG/backend/app.py:473-476 | a `null` scale answer is skipped by the backend and read as 0 by the dashboard |
| Scoring.ScaleExample | QOG-backup/frontend/src/components/ClarityDashboard.tsx:96-103 | 3 on a 1..5 scale scores 50 in both scorers |
| Scoring.ReverseScaleExample | QOG-backup/frontend/src/components/ClarityDashboard.tsx:89-103 | on a reverse-scored 1..5 question, 5 scores 0 and 1 scores 100 |
| Scoring.MultiExample | QOG-backup/frontend/src/components/ClarityDashboard.tsx:106-117 | one positive of two selections scores 50 |
| Domains.ObservationOf | QOG-backup/frontend/src/components/ClarityDashboard.tsx:158-163 | an answer is filed iff its question exists, has a non-excluded domain and the answer normalises |
| Domains.RecordObservations | QOG-backup/frontend/src/components/ClarityDashboard.tsx:157-170 | a record's filed answers carry admissible domains and scores in [0, 100] |
| Domains.AccumulateConsistent | QOG-backup/frontend/src/components/ClarityDashboard.tsx:165-169 | filing answers one by one yields, per domain, exactly the domain's scores in order; keys are listed once, in first-insertion order |
| Domains.RecordKeepsOrder | QOG-backup/frontend/src/components/ClarityDashboard.tsx:169 | `Map.set` keeps each key listed once in insertion order |
| Domains.DomainSummaries | QOG-backup/frontend/src/components/ClarityDashboard.tsx:153-191 | every summarised domain is one that received a filed answer |
| Domains.Summaries | QOG-backup/frontend/src/components/ClarityDashboard.tsx:175-190 | one summary per map entry, in insertion order |
| Domains.FileAnswer | QOG-backup/frontend/src/components/ClarityDashboard.tsx:158-169 | the inner callback updates the map as one filing step |
| Domains.BuildDomainSummaries | QOG-backup/frontend/src/components/ClarityDashboard.tsx:153-191 | the nested loops return the specified summaries |
| Domains.SummariesAdmissible | QOG-backup/frontend/src/components/ClarityDashboard.tsx:159-160 | no summary is for an empty or excluded domain, and no domain is summarised twice |
| Domains.SummariesComplete | QOG-backup/frontend/src/components/ClarityDashboard.tsx:175 | every domain that received an answer is summarised |
| Domains.SummariesMatchReference | QOG-backup/frontend/src/components/ClarityDashboard.tsx:176-189 | each summary combines exactly its domain's Likert and choice scores; responses counts them |
| Domains.DomainSetNonEmpty | QOG-backup/frontend/src/components/ClarityDashboard.tsx:168 | a summarised domain has at least one response |
| Domains.UnfiledAnswerIgnored | QOG-backup/frontend/src/components/ClarityDashboard.tsx:159-163 | an answer that is not filed changes no summary |
| Domains.SingleDomainMatchesRecordScore | QOG-backup/frontend/src/components/ClarityDashboard.tsx:153-191 | for a record within one domain, every summary is for that domain and has the record's dashboard breakdown: the same means, overall and number of responses |
| Insights.TopIndex | QOG-backup/frontend/src/components/ClarityDashboard.tsx:494-499 | the reduction picks a maximum, and the first one |
| Insights.WeakestIndex | QOG-backup/frontend/src/components/ClarityDashboard.tsx:548-553 | the reduction picks a minimum, and the first one |
| Insights.TopDomain | QOG-backup/frontend/src/components/ClarityDashboard.tsx:494-499 | absent iff there are no summaries, else one of them |
| Insights.WeakestDomain | QOG-backup/frontend/src/components/ClarityDashboard.tsx:548-553 | absent iff there are no summaries, else one of them |
| Insights.TopDomainIsFirstMaximum | QOG-backup/frontend/src/components/ClarityDashboard.tsx:494-499 | the strongest domain is absent iff there are no summaries, else the first summary with the highest score |
| Insights.WeakestDomainIsFirstMinimum | QOG-backup/frontend/src/components/ClarityDashboard.tsx:548-553 | the weakest domain is absent iff there are no summaries, else the first summary with the lowest score |
| Insights.TieGoesToFirst | QOG-backup/frontend/src/components/ClarityDashboard.tsx:494-499 | when every summary has the same score, the first summary is both the strongest and the weakest domain |
| Insights.UsableHacks | QOG-backup/frontend/src/components/ClarityDashboard.tsx:443-445 | no kept hack has an excluded domain, and every other hack is kept exactly as often as it occurs |
| Insights.UsableHacksSnocKept | QOG-backup/frontend/src/components/ClarityDashboard.tsx:443-445 | one more usable hack is kept at the end, so the filter keeps input order |
| Insights.UsableHacksSnocDropped | QOG-backup/frontend/src/components/ClarityDashboard.tsx:443-445 | one more hack with an excluded domain is dropped |
| Insights.FindHack | QOG-backup/frontend/src/components/ClarityDashboard.tsx:291 | `find` returns the first hack for the domain, or nothing when none is |
| Insights.SelectPromptHack | QOG-backup/frontend/src/components/ClarityDashboard.tsx:284-292 | no hack iff either list is empty; else the first hack for the weakest domain, or the first hack |
| Insights.PromptHackTargetsWeakest | QOG-backup/frontend/src/components/ClarityDashboard.tsx:284-292 | the chosen hack is for the weakest domain whenever some hack is |
| Insights.RadarData | QOG-backup/frontend/src/components/ClarityDashboard.tsx:537-546 | the radar has min(5, number of summaries) points |
| Insights.RadarPointsFromSorted | QOG-backup/frontend/src/components/ClarityDashboard.tsx:539-545 | the points are the first five of the descending sort, labelled and rounded |
| Insights.RadarShowsStrongest | QOG-backup/frontend/src/components/ClarityDashboard.tsx:539-541 | no domain left off the radar scores above a shown one, and the values are non-increasing |
| Insights.RadarLabels | QOG-backup/frontend/src/components/ClarityDashboard.tsx:542-545 | every point's label is its domain's friendly name if there is one, else the domain key, and its value is the domain's score rounded to within half a unit |
| Insights.GaugeZone | QOG-backup/frontend/src/components/ClarityDashboard.tsx:294-300 | the zone is neutral iff there is no value, else high, balanced, moderate or low by the 80/60/40 thresholds |
| Insights.GaugeZoneMonotone | QOG-backup/frontend/src/components/ClarityDashboard.tsx:296-299 | a higher value never lands in a lower zone |
| Insights.DeltaTone | QOG-backup/frontend/src/components/ClarityDashboard.tsx:588-593 | changes under 0.05 in magnitude are neutral; otherwise positive or negative by sign |
| Insights.DeltaPrefix | QOG-backup/frontend/src/components/ClarityDashboard.tsx:230-234 | the text is "0.0", "+" or empty; "+" iff the change is at least 0.05, empty iff it is at most -0.05 |
| Insights.DeltaTextMatchesTone | QOG-backup/frontend/src/components/ClarityDashboard.tsx:230-234 | the delta text starts with `+` iff the tone is positive, and reads `0.0` iff it is neutral |
| Insights.DeltaToneAntisymmetric | QOG-backup/frontend/src/components/ClarityDashboard.tsx:588-593 | negating a change swaps positive and negative tone |
| Insights.Clock | QOG-backup/frontend/src/components/ClarityDashboard.tsx:206-208 | hours, minutes and seconds recombine to the input |
| Insights.FormatDuration | QOG-backup/frontend/src/components/ClarityDashboard.tsx:204-212 | "0 m" for zero; `{s}s` under a minute; `{m} min` under an hour; else `{h} hr {m} m` with the minutes within the hour |
| Insights.FormatDurationDetailed | QOG-backup/frontend/src/components/ClarityDashboard.tsx:214-221 | "0 m" under a minute; `{m} m` under an hour; `{h} hr` on a whole hour; else `{h} hr {m} m` |
| Insights.DurationShownIsTruncation | QOG-backup/frontend/src/components/ClarityDashboard.tsx:204-212 | `formatDuration` shows a lower bound that is less than a minute short, and exact seconds under a minute |
| Insights.DetailedDurationShownIsTruncation | QOG-backup/frontend/src/components/ClarityDashboard.tsx:214-221 | `formatDurationDetailed` shows a lower bound less than a minute short |
| Insights.DurationExamples | QOG-backup/frontend/src/components/ClarityDashboard.tsx:204-221 | 5400 s shows as "1 hr 30 m", 45 s as "45s", 7200 s in detail as "2 hr" |
| WeekStats.Enrich | QOG-backup/frontend/src/components/ClarityDashboard.tsx:469-472 | a stored score wins; otherwise the dashboard breakdown fills in; nothing else changes |
| WeekStats.Where | QOG-backup/frontend/src/components/ClarityDashboard.tsx:245-249 | the filter keeps exactly the records that satisfy the test |
| WeekStats.WhereSnocAccepted | QOG-backup/frontend/src/components/ClarityDashboard.tsx:245-249 | a further record that passes the test is kept at the end, so the filter keeps order |
| WeekStats.WhereSnocRejected | QOG-backup/frontend/src/components/ClarityDashboard.tsx:245-249 | a further record that fails the test is dropped |
| WeekStats.ComputeWeekStats | QOG-backup/frontend/src/components/ClarityDashboard.tsx:236-271 | the sample count is the size of the current week; the delta is the current minus the previous average; an empty current week gives zero average, duration and iteration average |
| WeekStats.WindowsDisjoint | QOG-backup/frontend/src/components/ClarityDashboard.tsx:237-249 | no record is in both weekly windows, and baselines are in neither |
| WeekStats.EmptyWindowGivesZero | QOG-backup/frontend/src/components/ClarityDashboard.tsx:251-261 | an empty current week gives zero average, duration, iteration average and count |
| WeekStats.OutsideCurrentWeekIgnored | QOG-backup/frontend/src/components/ClarityDashboard.tsx:258-269 | a record outside the current week changes no current-week total |
| WeekStats.CurrentWeekRecordCounted | QOG-backup/frontend/src/components/ClarityDashboard.tsx:258-269 | a current-week record adds its duration (0 if absent) and one sample |
| WeekStats.AverageInRange | QOG-backup/frontend/src/components/ClarityDashboard.tsx:251-256 | the average of scores in [0, 100] is in [0, 100] |
| WeekStats.WeekAveragesInRange | QOG-backup/frontend/src/components/ClarityDashboard.tsx:251-266 | both weekly averages are in [0, 100] and the delta in [-100, 100] |
| WeekStats.WeekStatsExample | QOG-backup/frontend/src/components/ClarityDashboard.tsx:236-271 | a worked example: averages 70 and 50, delta 20, 300 s, 3 iterations on average, 2 samples |
| Histogram.TallyCorrect | QOG-backup/frontend/src/components/ClarityDashboard.tsx:274-278 | the bucket map holds each occurring iteration value once, with its count |
| Histogram.Entries | QOG-backup/frontend/src/components/ClarityDashboard.tsx:279 | the entries list the keys in insertion order with their counts |
| Histogram.HistogramOf | QOG-backup/frontend/src/components/ClarityDashboard.tsx:279-281 | the histogram is the first six sorted buckets, or all of them when there are fewer |
| Histogram.BuildHistogram | QOG-backup/frontend/src/components/ClarityDashboard.tsx:273-282 | the loop returns the specified histogram |
| Histogram.SortedBucketsAreEntries | QOG-backup/frontend/src/components/ClarityDashboard.tsx:279-280 | the sorted buckets are exactly the occurring values with their counts |
| Histogram.SortedBucketsAscending | QOG-backup/frontend/src/components/ClarityDashboard.tsx:280 | the buckets are in strictly ascending order of iteration value |
| Histogram.FirstSix | QOG-backup/frontend/src/components/ClarityDashboard.tsx:281 | keeping six buckets keeps the six smallest values |
| Histogram.HistogramCorrect | QOG-backup/frontend/src/components/ClarityDashboard.tsx:273-282 | at most six buckets, strictly ascending and with true counts; any value left out is larger than all six shown |
| Histogram.HistogramExample | QOG-backup/frontend/src/components/ClarityDashboard.tsx:273-282 | iterations 2, 2, 5, 1, 1, 1 give buckets (1,3), (2,2), (5,1) |
| Tasks.MintedId | QOG/backend/app.py:113 | a minted id is `msg-` followed by the hex digits |
| Tasks.CleanMetadata | QOG/backend/app.py:108-111 | truthy non-dictionary metadata is removed; anything else is kept |
| Tasks.Clean | QOG/backend/app.py:107-113 | a cleaned message has a non-empty id, keeps a non-empty id, and keeps role, content and timestamp |
| Tasks.Normalized | QOG/backend/app.py:102-115 | normalisation never adds entries |
| Tasks.NormalizeMessages | QOG/backend/app.py:102-115 | the loop returns the specified normalised list |
| Tasks.NormalizedCorrect | QOG/backend/app.py:104-114 | every dictionary survives and nothing else does; survivors have ids and clean metadata |
| Tasks.NormalizedAppend | QOG/backend/app.py:104-114 | normalisation preserves order |
| Tasks.NormalizedIdempotent | QOG/backend/app.py:102-115 | normalising a normalised list changes nothing |
| Tasks.Trunc | QOG/backend/app.py:139 | `int()` truncates toward zero |
| Tasks.Duration | QOG/backend/app.py:135-142 | 0 without a start; end minus start when ended; 0 when inactive without an end; else now minus start, never negative |
| Tasks.Append | QOG/backend/app.py:130-132 | appending keeps the old messages, adds the new one last, and counts a user message as an iteration |
| Tasks.PopUser | QOG/backend/app.py:654-656 | a trailing user message is removed and the counter decremented (not below 0); otherwise nothing changes |
| Tasks.RollbackSend | QOG/backend/app.py:653-656 | the send rollback leaves a prefix of the transcript |
| Tasks.RollbackImprove | QOG/backend/app.py:717-722 | the improve rollback removes at most two trailing messages |
| Tasks.SendRollbackRestores | QOG/backend/app.py:645-656 | a failed generation (only the user message appended) leaves the transcript exactly as before |
| Tasks.SendRollbackAfterReplyKeepsBoth | QOG/backend/app.py:647-656 | a failure after the reply was appended (the store failed) leaves both messages: the rollback only pops a trailing user message |
| Tasks.ImproveRollbackRestores | QOG/backend/app.py:703-722 | a failed improvement with only the instruction appended is undone exactly |
| Tasks.ImproveRollbackRemovesReply | QOG/backend/app.py:703-724 | with the reply appended as well, the improvement is still undone exactly |
| Tasks.LastActivity | QOG/backend/app.py:179 | the last activity is the last message's time, else `updated_at` |
| Tasks.Task.constructor | QOG/backend/app.py:86-100 | a new task has no messages, no iterations, is active and started now |
| Tasks.Task.AddMessage | QOG/backend/app.py:117-133 | the transcript is appended with the built message; `updated_at` becomes its time; nothing else changes |
| Tasks.Task.GetDuration | QOG/backend/app.py:135-142 | the method returns the specified duration |
| Tasks.Task.MarkCompleted | QOG/backend/app.py:144-148 | the task becomes inactive with an end time, and its duration no longer depends on the clock |
| Tasks.Task.ToSummary | QOG/backend/app.py:170-184 | the summary reports the task's fields, duration and last activity |
| Tasks.Task.RollbackFailedSend | QOG/backend/app.py:653-656 | the transcript after a failed send is the send rollback of the transcript before |
| Tasks.Task.RollbackFailedImprove | QOG/backend/app.py:717-722 | the transcript after a failed improvement is the improve rollback of the transcript before |
| Tasks.NewMessage | QOG/backend/app.py:118-129 | the message id is the non-empty `message_id` from the metadata, else minted; the remaining metadata is kept only if non-empty |
| Tasks.IndexFrom | QOG/backend/app.py:399-402 | the first position at or after the start with the id, or -1 iff there is none |
| Tasks.FindMessageIndex | QOG/backend/app.py:396-402 | the least index with the id; -1 iff the id is empty or absent |
| Tasks.History | QOG/backend/app.py:409 | the window is the last twenty messages, or all of them |
| Tasks.MappedRole | QOG/backend/app.py:419 | `assistant` becomes `model`; every other role becomes `user` |
| Tasks.Compile | QOG/backend/app.py:414-423 | compiled entries have non-empty texts and model or user roles |
| Tasks.CompileIsMappedNonEmpty | QOG/backend/app.py:414-423 | the compiled entries are the window's non-empty messages in order, with mapped roles |
| Tasks.ContextMessages | QOG/backend/app.py:404-424 | the context is the system instruction followed by the compiled window: 1 to 21 entries |
| Tasks.ShortTranscriptWhole | QOG/backend/app.py:409 | with twenty messages or fewer, the whole transcript is compiled |
| Tasks.ClampLimit | QOG/backend/app.py:757 | the limit is clamped to [1, 100] |
| Tasks.PageEnd | QOG/backend/app.py:767-773 | the page ends at the cursor message, at the end, or -1 for an unknown cursor |
| Tasks.Paginate | QOG/backend/app.py:756-778 | error iff the limit is not an integer or the cursor is unknown; otherwise up to `limit` messages just before the end, with `has_more` iff earlier ones exist and the next cursor on the first message |
| Tasks.PagesChain | QOG/backend/app.py:775-778 | with unique ids, following `next_cursor` yields the adjacent earlier page |
| Users.SanitizeUser | QOG/backend/app.py:282-289 | none iff the user is missing or empty; else every field except the password, values unchanged |
| Users.SanitizeIdempotent | QOG/backend/app.py:282-289 | sanitising is idempotent and leaves no password |
| Users.FindUserByEmail | QOG/backend/app.py:271-279 | the first stored user whose e-mail matches ignoring case; none iff the e-mail is empty or nothing matches |
| Users.WithDefaults | QOG/backend/app.py:344-345 | missing `context` and `task_meta` get their defaults; existing fields are kept |
| Users.LoadedResults | QOG/backend/app.py:336-349 | loaded results have the defaults and, when a user is given, belong to that user |
| Users.LoadResults | QOG/backend/app.py:336-349 | the loop returns the specified results, or none when the file is not a list |
| Users.LoadedResultsAppend | QOG/backend/app.py:341-348 | loading keeps file order |
| Users.LoadedSingle | QOG/backend/app.py:342-348 | an entry is loaded, with defaults, iff it is kept |
| Users.LoadedResultsCount | QOG/backend/app.py:341-349 | the number loaded is the number of kept entries |
| TaskList.FirstPresent | QOG/src/App.tsx:53-58 | `??` chains return the first present value, and nothing iff all are absent |
| TaskList.LastActivityFromPayload | QOG/src/App.tsx:49-59 | last activity falls back through updated, completed, started and the last message's time |
| TaskList.TextOrNull | QOG/src/App.tsx:72 | only a string survives |
| TaskList.NormalizeTaskSummary | QOG/src/App.tsx:61-77 | id from `id` then `task_id` then the fallback; name, category, iterations and duration kept when present, else their defaults; `is_active` kept; last activity, start and completion times kept only when they are strings |
| TaskList.NormalizeMessage | QOG/src/App.tsx:82-88 | the role is assistant iff the payload says so, else user; a missing id defaults to `msg-<task>-<index>`; content and timestamp kept when present, else empty and the current time |
| TaskList.NormalizeActiveTask | QOG/src/App.tsx:79-93 | the summary is normalised, and every payload message is normalised in place |
| TaskList.DefaultIdsDiffer | QOG/src/App.tsx:83 | messages without ids get distinct default ids |
| TaskList.ToTimestamp | QOG/src/App.tsx:119-123 | missing, empty or unparseable dates give 0 |
| TaskList.SortTaskSummaries | QOG/src/App.tsx:125-127 | the sort is a permutation of the list |
| TaskList.SortTaskSummariesCorrect | QOG/src/App.tsx:125-127 | the sorted list is a permutation ordered by non-increasing activity time |
| TaskList.WithoutId | QOG/src/App.tsx:342 | no remaining entry has the id, and every remaining entry came from the list |
| TaskList.WithoutIdCounts | QOG/src/App.tsx:342 | every entry with another id is kept exactly as often as it occurs; entries with the id are all dropped |
| TaskList.WithoutIdSnocKept | QOG/src/App.tsx:342 | one more entry with another id is kept at the end, so the filter keeps order |
| TaskList.WithoutIdSnocDropped | QOG/src/App.tsx:342 | one more entry with the id is dropped |
| TaskList.Upserted | QOG/src/App.tsx:341-344 | the new list is the summary plus the entries with other ids |
| TaskList.UpsertedCorrect | QOG/src/App.tsx:339-345 | after an upsert exactly one entry has the id, and it is the new summary; entries with other ids are kept; the list is ordered by most recent activity first |
| TaskList.AppModel.constructor | QOG/src/App.tsx:135-136 | the app starts with no open task and an empty list |
| TaskList.AppModel.UpsertTaskSummary | QOG/src/App.tsx:339-345 | the task list becomes the upserted list |
| TaskList.AppModel.BeginSend | QOG/src/App.tsx:379-395 | without an open task, a signed-in user or a non-blank message nothing changes; else the user message is appended and iterations incremented |
| TaskList.AppModel.FinishSend | QOG/src/App.tsx:413-420 | on failure the task before the send is restored; on success the backend's task replaces it and is upserted |
| TaskList.FirstToken | QOG/src/App.tsx:147 | the first token is the space-free prefix before the first space |
| TaskList.UserDisplayName | QOG/src/App.tsx:145-149 | no name shows nothing; else the first word, or the whole name when the first word is empty |
| TaskList.FirstTokenWhole | QOG/src/App.tsx:147 | a text without spaces is its own first token |
| TaskList.SingleWordShownWhole | QOG/src/App.tsx:145-149 | a one-word name is shown whole |
| Baseline.IsAnswered | src/components/BaselineWizard.tsx:113-130 | answered per type: non-empty selection, non-empty choice, non-blank text, a finite or absent scale value; unknown types never |
| Baseline.RemoveAll | src/components/BaselineWizard.tsx:96 | every copy of the option is removed; every other option is kept exactly as often as it occurs |
| Baseline.RemoveAllSnocKept | src/components/BaselineWizard.tsx:96 | one more other option is kept at the end, so the filter keeps order |
| Baseline.RemoveAllSnocDropped | src/components/BaselineWizard.tsx:96 | one more copy of the option is dropped |
| Baseline.Toggle | src/components/BaselineWizard.tsx:94-97 | the option is flipped in or out; every other option keeps its multiplicity; removing drops every copy |
| Baseline.ToggleTwice | src/components/BaselineWizard.tsx:92-99 | toggling twice restores the selected set |
| Baseline.ScaleIds | src/components/BaselineWizard.tsx:138-139 | the ids of exactly the scale questions |
| Baseline.Filled | src/components/BaselineWizard.tsx:137-144 | the compiled answers add the scale questions' ids and keep every existing answer |
| Baseline.FilledDefaults | src/components/BaselineWizard.tsx:138-143 | an unanswered scale question gets its midpoint |
| Baseline.FillDefaults | src/components/BaselineWizard.tsx:137-144 | the loop returns the compiled answers |
| Baseline.Wizard.constructor | src/components/BaselineWizard.tsx:15-21 | the wizard starts at the introduction with no questions or answers |
| Baseline.Wizard.Start | src/components/BaselineWizard.tsx:76-78 | start moves to calibrating, and the load it triggers clears the error (line 31) |
| Baseline.Wizard.FinishLoading | src/components/BaselineWizard.tsx:40-47 | the questions are set, the cursor and answers reset, and the stage is questions or complete |
| Baseline.Wizard.LoadingFailed | src/components/BaselineWizard.tsx:48-55 | a failed load returns to the introduction; an aborted request shows the unreachable-server text, another failure its message, or the fallback when the message is empty |
| Baseline.Wizard.ToggleMultiOption | src/components/BaselineWizard.tsx:92-99 | only the question's own answer changes, to the toggled selection |
| Baseline.Wizard.GoBack | src/components/BaselineWizard.tsx:132-134 | the cursor decreases but never below 0 |
| Baseline.Wizard.SubmitAndComplete | src/components/BaselineWizard.tsx:136-155 | the compiled answers are submitted; success completes; failure shows the error or the fallback |
| Baseline.Wizard.GoNext | src/components/BaselineWizard.tsx:157-166 | no current question changes nothing; else advance with stage and error kept, or on the last question submit: success completes, failure keeps the stage and shows the message or the fallback |
| Baseline.Wizard.HandleSkip | src/components/BaselineWizard.tsx:80-90 | outside the questions stage a skip is reported and nothing else changes; otherwise advance with stage and error kept, or submit on the last question as `GoNext` does |
| Baseline.DefaultScaleMidpoint | src/components/BaselineWizard.tsx:12 | the default 1..5 scale midpoint is 3 |
| ReflectionModal.ScaleShown | src/components/ReflectionModal.tsx:99 | a stored number is shown; otherwise the rounded midpoint, within the scale |
| ReflectionModal.DurationText | src/components/ReflectionModal.tsx:157 | the header shows whole minutes and remaining seconds |
| ReflectionModal.Modal.constructor | src/components/ReflectionModal.tsx:23-26 | the dialog starts at step 0 with no questions or answers |
| ReflectionModal.Modal.LoadQuestions | src/components/ReflectionModal.tsx:34-35 | the first three shuffled questions are kept |
| ReflectionModal.Modal.Next | src/components/ReflectionModal.tsx:41-75 | advance while a question follows; else submit once, showing "saved" on success |
| ReflectionModal.Modal.Back | src/components/ReflectionModal.tsx:46-48 | back never goes below the first question |
| ReflectionModal.Modal.Toggle | src/components/ReflectionModal.tsx:80-85 | only the question's selection changes; the option is flipped |
| ReflectionModal.DefaultScaleShowsThree | src/components/ReflectionModal.tsx:99 | an untouched 1..5 scale shows 3 |
| Sidebar.FormatTime | QOG/frontend/src/components/Sidebar.tsx:65-69 | `{m}m {s}s` with m·60 + s equal to the input and s below 60 |
| Sidebar.RelativeTime | QOG/frontend/src/components/Sidebar.tsx:71-90 | no time iff the timestamp is missing, empty or invalid; then just now, minutes, hours or days by the thresholds, with bounded counts |
| Sidebar.RoundedUnits | QOG/frontend/src/components/Sidebar.tsx:80-89 | the rounded count is at least 1 and at most 60 or 24 within its band |
| Sidebar.RelativeTimeExample | QOG/frontend/src/components/Sidebar.tsx:79-83 | ninety seconds ago shows as two minutes |
| Sidebar.StatusLabel | QOG/frontend/src/components/Sidebar.tsx:195 | "Active" exactly for an active task, else "Completed" |
| Sidebar.NewTaskForm.constructor | QOG/frontend/src/components/Sidebar.tsx:42-44 | the form starts closed, with an empty name and category General |
| Sidebar.NewTaskForm.HandleNewTaskClick | QOG/frontend/src/components/Sidebar.tsx:48-59 | a closed form opens; an open form with a non-blank name creates the trimmed task and resets; a blank name does nothing |
| Sidebar.NewTaskForm.Cancel | QOG/frontend/src/components/Sidebar.tsx:148-151 | cancel closes the form and clears the name |
| AuthForms.ShownError | src/components/auth/LoginForm.tsx:60-64 | the parent's non-empty error wins; else the fallback iff validation fails |
| AuthForms.LoginForm.constructor | src/components/auth/LoginForm.tsx:12-14 | the form starts empty and untouched |
| AuthForms.LoginForm.HandleSubmit | src/components/auth/LoginForm.tsx:16-27 | the form becomes touched; a payload with a trimmed e-mail is sent iff neither field is blank |
| AuthForms.LoginForm.Message | src/components/auth/LoginForm.tsx:29-64 | a message shows iff the parent has an error or validation fails |
| AuthForms.SignupForm.constructor | src/components/auth/SignupForm.tsx:12-15 | the form starts empty and untouched |
| AuthForms.SignupForm.HandleSubmit | src/components/auth/SignupForm.tsx:17-28 | the form becomes touched; a trimmed payload is sent iff no field is blank |
| AuthForms.SignupForm.Message | src/components/auth/SignupForm.tsx:30-76 | a message shows iff the parent has an error or validation fails |
| AuthForms.SentPayloadClean | src/components/auth/LoginForm.tsx:19-23 | a sent e-mail is non-empty with no surrounding whitespace, and the password is not blank |

## Left out

- Rounding to two decimals is not modelled. This covers `round(x, 2)` in the backend and `Math.round(x * 100) / 100` in the dashboard. Breakdowns are exact reals, and the agreement results hold before that rounding.
- Scoring.ComputeReflectionScore, Scoring.ComputeScore: neither states the rounding above. They state the unrounded breakdown.
- The model has no NaN and no infinity, because reals are finite. `Number.isFinite` tests are modelled by `Option` where the source has them, as in `GaugeZone` and `JsNumber`.
- Scoring.JsNumber: the dashboard's coercion of other value types is not modelled. That covers numeric strings, booleans and one-element arrays given as scale answers. Such values are a single "other" value that does not convert.
- Scoring.PyFloat: Python's `float()` also converts numeric strings such as `"3"` or `" 2.5 "` and booleans (QOG/backend/app.py:474). The model converts numbers only: a string answer to a scale question is skipped by the model's backend where the real backend would score it, and booleans are not among the modelled answer values.
- Scoring.ScaleMin, Scoring.ScaleMax: a bound stored as `null` is read as absent and takes the default (1 or 5). That is what the dashboard does (`?? 1`). The backend instead calls `float(None)` outside its `try` (QOG/backend/app.py:471-472), which raises and fails the request; that error is not modelled.
- A scale given as `null` in the question bank crashes the backend (`scale.get` on `None`). That error path is not modelled, and an absent scale takes the defaults.
- Whitespace and case are ASCII only. Unicode whitespace for `trim`/`strip`, Unicode case folding and normalisation are left out.
- The stability of the sorts is not proved. The task list, radar and histogram sorts are specified by permutation and order.
- Persistence is not modelled: reading and writing the JSON files, Flask routing, HTTP status codes, locks and the per-user caches. Each operation works on the decoded values.
- External calls are not modelled: the model's reply (Gemini), `uuid4`, `time.time`, `Date.now` and date parsing. They are parameters.
- Rendering is not modelled: JSX and CSS, the SemiGauge and RadarProfile graphics, and `toFixed` formatting of numbers. Only the sign part of `formatDelta` is modelled, as `DeltaPrefix`.
- Asynchronous effects and timers are not modelled: loading, abort timeouts, the 900 ms stage delay and cancelled effects. Each outcome is a separate method call.
- The random shuffle of the reflection questions is the `shuffled` parameter.
- ChatView and the front-end service modules are not part of this model.
- The text tables (`friendlyName`, `domainNarratives`, `reasoningDisplayOrder`) are a parameter map or left out. So are the strength and stretch messages built from them.
- In the reflection dialog, a truthy non-array answer to a multi question is treated as no selection. In the source, such an answer would reach `includes`.
- Sidebar.FormatTime: negative durations are excluded, because durations are natural numbers.
- Extra keys of a stored message dictionary are dropped. The fields kept are id, role, content, timestamp and metadata.
- Tasks.Paginate: the default limit of 20 for a missing `limit` argument is the caller's `Some(20)`. The errors for a missing user, task or ownership come before this logic and are left out.
- Users.FindUserByEmail: the users file is the list of its values in file order.
