# SchemeAssist AI recommendation engine in Dafny

This project models the recommendation engine of SchemeAssist AI, which
matches a citizen's profile against a catalog of government welfare
schemes. The profile gives a state, an age, an annual income and a
category of interest. The engine exists twice:

- The TypeScript engine in `src/utils/recommender.ts` covers:
  - scoring;
  - the eligibility reasons and alerts;
  - the ranked recommendations;
  - the report and its summary;
  - the catalog statistics;
  - profile validation;
  - the Markdown export.
- The Python backend in `backend/app.py` covers scoring, reasons and the report. Its rules differ in several places.

Modules, one per concern of the source:

| file | module | models |
|---|---|---|
| `types.dfy` | `Types` | the profile, scheme, alert, result and report records |
| `text.dfy` | `Text` | decimal rendering of numbers, prefixes, joining lines |
| `sequences.dfy` | `Sequences` | ordering of lists whose entry kinds have fixed positions |
| `scoring.dfy` | `Scoring` | `calculateEligibilityScore` |
| `ranking.dfy` | `Ranking` | the stable sort by descending score, as a function and as an in-place array sort |
| `explanation.dfy` | `Explanation` | `generateReasons` and `generateAlerts` |
| `recommender.dfy` | `Recommender` | `getRecommendations` and `generateReport` |
| `statistics.dfy` | `Statistics` | `getSchemeStats` |
| `validation.dfy` | `Validation` | `validateProfile` |
| `markdown.dfy` | `MarkdownExport` | `exportReportAsMarkdown` |
| `backend.dfy` | `Backend` | `calculate_eligibility_score`, `generate_reasons` and `generate_report` of the Python backend |

Each source procedure that works step by step is a `method` whose loop and
branches follow the source. The method is proved equal to a specification
function. The properties the source promises are then proved about that
function as lemmas.

Modelling choices:

- Scores are computed over exact reals.
- The catalog is a parameter, not a module-level import.
- The clock is a parameter: `daysUntil` maps a deadline to the whole number of days left, and the report's timestamp is passed in.
- Locale formatting is a parameter (`Types.Formats`).
- Reasons are tagged data. `Explanation.ReasonText` and `Backend.BackendReasonText` render them as the source's sentences.
- Alerts keep the source's exact messages.

## Model

| member | source | states |
|---|---|---|
| Types.ActiveSchemes | src/utils/recommender.ts:257 | the active schemes are exactly the catalog's schemes with `is_active` set, in catalog order: each active scheme is kept as often as the catalog holds it and every inactive one is dropped |
| Text.NatToString | src/utils/recommender.ts:344 | a natural renders as a non-empty string of decimal digits with no leading zero |
| Text.ParseNatToString | src/utils/recommender.ts:231 | reading the rendered digits back gives the number (the round trip of a count written into text) |
| Text.NatToStringInjective | src/utils/recommender.ts:344 | two different numbers never render the same, so section numbers are distinct |
| Scoring.AgeBonus | src/utils/recommender.ts:20-26 | the age bonus lies in [0, 5]; it is 5 exactly at the middle of the range and 0 exactly at either end |
| Scoring.IncomeBonus | src/utils/recommender.ts:33-37 | the income bonus lies in [0, 10]; it is 10 exactly at the minimum income and 0 exactly at the maximum |
| Scoring.AgePoints | src/utils/recommender.ts:16-27 | no age points exactly when the age is out of range; otherwise between 25 and 30, exactly 25 for a one-age range, and the full 30 exactly at the midpoint of a wider range |
| Scoring.IncomePoints | src/utils/recommender.ts:29-38 | no income points exactly when the income is out of range; otherwise between 30 and 40, exactly 30 for a one-value range, and the full 40 exactly at the minimum of a wider range |
| Scoring.StatePoints | src/utils/recommender.ts:41-48 | 25 exactly for a State-level scheme of the profile's own state, 20 for any other geographic match, 0 otherwise |
| Scoring.CategoryPoints | src/utils/recommender.ts:50-73 | 25 exactly on an equal category, 10 exactly when the scheme's category is listed for the profile's, 0 otherwise |
| Scoring.RawScore | src/utils/recommender.ts:12-73 | the sum of the four parts lies in [0, 120] |
| Scoring.EligibilityScore | src/utils/recommender.ts:76 | the score is an integer in [0, 100] within half a point of the raw sum (capped at 100); meeting all four criteria gives 100 |
| Scoring.CalculateEligibilityScore | src/utils/recommender.ts:11-78 | the accumulating procedure returns `EligibilityScore` |
| Scoring.RelatedCreditIsAsymmetric | src/utils/recommender.ts:56-72 | the table is read under the applicant's category only: Food Security applicants get 10 from Health schemes, Health applicants get nothing from Food Security schemes |
| Scoring.AgricultureRelatedCategories | src/utils/recommender.ts:57 | an Agriculture applicant gets partial credit exactly from Business and Skill Development schemes |
| Ranking.Insert | src/utils/recommender.ts:215 | inserting into a sorted list keeps it sorted by descending score and adds exactly the one element |
| Ranking.InsertWithScore | src/utils/recommender.ts:215 | insertion puts the new element before the others of equal score and leaves each score's sequence otherwise unchanged |
| Ranking.SortByScore | src/utils/recommender.ts:215 | the sorted list is sorted by descending score, is a permutation of the input, and keeps the input order among equal scores (stability) |
| Ranking.WithScoreMembers | src/utils/recommender.ts:215 | the results of a given score come from the list and carry that score, and some exist whenever a result has that score |
| Ranking.StableSortIsUnique | src/utils/recommender.ts:215 | any list that is sorted and has the input's sequence of results per score is the sort's result: the stable order is unique |
| Ranking.SortedTiesDetermine | src/utils/recommender.ts:215 | two sorted lists with the same sequence of results per score are equal |
| Ranking.WithScoreConcat | src/utils/recommender.ts:215 | the results of a score in a concatenation are those of each part, in order |
| Ranking.SwapKeepsTies | src/utils/recommender.ts:215 | swapping two neighbours of different score keeps each score's sequence |
| Ranking.SortInPlace | src/utils/recommender.ts:215 | sorting the array in place leaves exactly `SortByScore` of its old contents |
| Ranking.SinkInto | src/utils/recommender.ts:215 | moving one element down into the sorted prefix extends the prefix, keeps each score's sequence and leaves the part after it untouched |
| Explanation.HeadlineFor | src/utils/recommender.ts:113-120 | a headline exists exactly from 60 up; Perfect Match exactly from 90, Highly Eligible exactly from 75 to 89 |
| Explanation.CriteriaReasonsShape | src/utils/recommender.ts:86-108 | at most four criteria sentences, in the order age, income, state, category |
| Explanation.ReasonsShape | src/utils/recommender.ts:83-123 | the target-group sentence always comes last, and the sentences keep the order headline, age, income, state, category, target group |
| Explanation.ReasonsHeadline | src/utils/recommender.ts:113-120 | the first sentence is the Perfect Match, Highly Eligible or Eligible headline exactly in the bands 90+, 75-89 and 60-74, and no headline below 60 |
| Explanation.ReasonsContent | src/utils/recommender.ts:86-108 | each criteria sentence appears exactly when its criterion holds; the category sentence needs an exact match |
| Explanation.ReasonsKinds | src/utils/recommender.ts:86-108 | no other age, income, state or category sentence appears: each is the one for this scheme and profile, and only when its criterion holds, so a related-only category gives no category sentence |
| Explanation.GenerateReasons | src/utils/recommender.ts:83-123 | pushing the criteria sentences and unshifting the headline gives `Reasons` |
| Explanation.DeadlineAlert | src/utils/recommender.ts:152-164 | an alert exists exactly 1 to 90 days ahead; high priority up to 7 days, medium from 8 to 30, low from 31 |
| Explanation.DeadlineAlertMessage | src/utils/recommender.ts:152-164 | the alert's message names the days left and the date up to 30 days ahead, and the date alone from 31 to 90 days |
| Explanation.MatchAlert | src/utils/recommender.ts:132-144 | a match alert exists exactly from 80 up, always high priority; it is the perfect match exactly from 90 |
| Explanation.MatchAlertMessage | src/utils/recommender.ts:132-144 | the match alert says "Perfect Match! …" from 90 and "You are highly eligible …" from 80 to 89 |
| Explanation.DeadlineAlerts | src/utils/recommender.ts:147-165 | a deadline alert exists exactly for a scheme with a deadline 1 to 90 days away, with the priorities by days left |
| Explanation.DeadlineAlertsMessage | src/utils/recommender.ts:147-165 | a scheme's deadline alert carries the message for its deadline and days left |
| Explanation.NewAlert | src/utils/recommender.ts:168-174 | a newness alert exists exactly for a new scheme, with medium priority |
| Explanation.NewAlertMessage | src/utils/recommender.ts:168-174 | the newness alert carries the newly-launched message |
| Explanation.AlertsShape | src/utils/recommender.ts:128-177 | at most three alerts, in the order match alert, deadline, newness; the match alert is high priority |
| Explanation.AlertRankAt | src/utils/recommender.ts:128-177 | each alert's kind follows from the block it was pushed in |
| Explanation.AlertsMatch | src/utils/recommender.ts:132-144 | the perfect match alert appears exactly from 90, the high eligibility alert exactly from 80 to 89 |
| Explanation.AlertsNewness | src/utils/recommender.ts:168-174 | the newness alert appears exactly for new schemes, and it is medium priority |
| Explanation.AlertsDeadline | src/utils/recommender.ts:147-165 | the deadline alert appears exactly for a deadline 1 to 90 days away, with high, medium and low priority in the bands up to 7, 8 to 30 and 31 to 90 days, and with the message for that deadline |
| Explanation.DeadlineAlertPosition | src/utils/recommender.ts:147-165 | a deadline alert sits right after the match alert and is the only alert of its kind |
| Explanation.DeadlineKindAt | src/utils/recommender.ts:147-165 | an alert is a deadline alert exactly at the deadline block's position |
| Explanation.GenerateAlerts | src/utils/recommender.ts:128-177 | the pushing procedure returns `Alerts` |
| Recommender.CandidatesMembers | src/utils/recommender.ts:186-212 | a result is collected exactly when it is the result of a catalog scheme that is active, matches the state and scores at least 50 |
| Recommender.CandidatesOnce | src/utils/recommender.ts:186-212 | for a catalog without repeated records, no result is collected twice |
| Recommender.RankingKeepsMembers | src/utils/recommender.ts:215 | sorting neither drops nor adds a result |
| Recommender.RecommendationsMembers | src/utils/recommender.ts:183-218 | a scheme's result is recommended exactly when the scheme is in the catalog, active, state-matching and scores at least 50; every recommendation is such a result |
| Recommender.RecommendationsBounds | src/utils/recommender.ts:198-210 | every recommendation scores at least 50 with its own score, has at least 20 state points, and carries that scheme's reasons and alerts |
| Recommender.RecommendationsOrder | src/utils/recommender.ts:215 | for any catalog, recommendations never increase in score and equal scores keep catalog order |
| Recommender.RecommendationsDistinct | src/utils/recommender.ts:186-215 | for a catalog without repeated records, no recommendation appears twice |
| Recommender.GetRecommendations | src/utils/recommender.ts:183-218 | the loop plus the in-place sort returns `Recommendations` |
| Recommender.HighScoreCountPositive | src/utils/recommender.ts:238 | the high-score count is positive exactly when some recommendation scores 80 or more |
| Recommender.SummaryOpening | src/utils/recommender.ts:228-236 | the opening's first letter identifies its bucket of counts |
| Recommender.OpeningStartsWithWord | src/utils/recommender.ts:228-236 | each opening starts with its bucket's words |
| Recommender.SummaryBucket | src/utils/recommender.ts:228-236 | the summary starts "No schemes match", "Found ", "Great news!" or "Excellent!" exactly for 0, 1 to 5, 6 to 15, and more than 15 recommendations |
| Recommender.SummaryCount | src/utils/recommender.ts:228-236 | each bucket's sentence writes the number of recommendations in decimal between its fixed words |
| Recommender.SummaryHighEligibility | src/utils/recommender.ts:238-241 | the summary ends with the high-eligibility sentence exactly when some recommendation scores 80 or more |
| Recommender.SummaryHighCount | src/utils/recommender.ts:238-241 | when some recommendation scores 80 or more, the summary closes with that count in decimal followed by the high-eligibility words |
| Recommender.GenerateReport | src/utils/recommender.ts:223-251 | the report carries the timestamp, the profile, the number of active schemes, the ranked recommendations, their count and the summary |
| Statistics.StoreShape | src/utils/recommender.ts:262 | setting a category's count keeps the key order and appends a new key at the end |
| Statistics.LookupStore | src/utils/recommender.ts:262 | after setting a category's count, that category reads the new count and every other reads as before |
| Statistics.StoreDistinct | src/utils/recommender.ts:262 | setting a count never duplicates a key |
| Statistics.StoreTotal | src/utils/recommender.ts:262 | setting a count changes the total by the difference |
| Statistics.LookupMissing | src/utils/recommender.ts:262 | a missing key reads as 0 (the `|| 0` default) |
| Statistics.CountNew | src/utils/recommender.ts:270 | no more new schemes than active ones |
| Statistics.CountWithDeadline | src/utils/recommender.ts:271 | no more schemes with a deadline than active ones |
| Statistics.TallyCounts | src/utils/recommender.ts:261-264 | the tally has distinct keys, reads each category's number of schemes, and its counts add up to the number of schemes |
| Statistics.TallyLast | src/utils/recommender.ts:262 | one more scheme adds one to the count of its own category and leaves every other category's count unchanged |
| Statistics.TallyKeys | src/utils/recommender.ts:261-264 | a category is a key exactly when some scheme has it |
| Statistics.TallyPositive | src/utils/recommender.ts:261-264 | every count in the tally is at least 1 |
| Statistics.LevelsAddUp | src/utils/recommender.ts:263 | the Central and State counts add up to the number of schemes |
| Statistics.StatsConsistent | src/utils/recommender.ts:256-273 | the category counts and the level counts each add up to the total of active schemes, and the new and deadline counts do not exceed it |
| Statistics.CountActive | src/utils/recommender.ts:261-264 | the counting loop yields the category tally and the central and state counts of the active schemes |
| Statistics.GetSchemeStats | src/utils/recommender.ts:256-273 | the procedure returns `Stats` of the catalog |
| Validation.TrimStart | src/utils/recommender.ts:281 | trimming the front leaves no leading whitespace |
| Validation.TrimEnd | src/utils/recommender.ts:281 | trimming the back leaves no trailing whitespace |
| Validation.TrimEmpty | src/utils/recommender.ts:281 | a string trims to empty exactly when it is all whitespace |
| Validation.StateErrors | src/utils/recommender.ts:281-283 | at most one error, about the state |
| Validation.AgeErrors | src/utils/recommender.ts:285-289 | at most one error, about the age |
| Validation.IncomeErrors | src/utils/recommender.ts:291-295 | at most one error, about the income |
| Validation.CategoryErrors | src/utils/recommender.ts:297-299 | at most one error, about the category |
| Validation.ErrorsEmptyIff | src/utils/recommender.ts:278-305 | there are no errors exactly when the state and category have text, the age is given and in 0..120, and the income is given and not negative |
| Validation.ErrorsOrder | src/utils/recommender.ts:278-305 | at most four errors, in the form's field order |
| Validation.FieldsInOrder | src/utils/recommender.ts:281-299 | one optional error per field, joined in field order, is ordered by field |
| Validation.ErrorOfField | src/utils/recommender.ts:278-305 | an error is reported exactly when its field's check reports it |
| Validation.ErrorsContentText | src/utils/recommender.ts:281-283 | the state and category errors appear exactly when the field is missing or blank |
| Validation.ErrorsContentNumbers | src/utils/recommender.ts:285-295 | the age errors appear exactly when the age is missing or outside 0..120; the income errors exactly when the income is missing or negative |
| Validation.ValidateProfile | src/utils/recommender.ts:278-305 | the procedure returns `Errors`, and `isValid` holds exactly when there are none |
| MarkdownExport.ReasonLines | src/utils/recommender.ts:361-363 | one line per reason |
| MarkdownExport.AlertLines | src/utils/recommender.ts:367-370 | one line per alert |
| MarkdownExport.ReasonBullets | src/utils/recommender.ts:361-363 | every reason line is a "- " bullet |
| MarkdownExport.AlertBullets | src/utils/recommender.ts:367-370 | every alert line is a "- " bullet |
| MarkdownExport.SectionHeadingOnly | src/utils/recommender.ts:343-374 | a section holds exactly one "### " line, its own heading |
| MarkdownExport.SectionDeadlineRow | src/utils/recommender.ts:356-358 | a section has a Deadline row exactly when its scheme has a deadline, and that row shows the deadline |
| MarkdownExport.AlertBlockTitle | src/utils/recommender.ts:365-372 | the alerts block has its title exactly when there are alerts |
| MarkdownExport.SectionAlertsTitle | src/utils/recommender.ts:365-372 | a section has the "**Alerts:**" line exactly when its recommendation has alerts |
| MarkdownExport.SectionsHeadings | src/utils/recommender.ts:342-344 | the sections' headings are the recommendations' headings, in order |
| MarkdownExport.HeaderNoHeading | src/utils/recommender.ts:313-340 | the header lines hold no section heading |
| MarkdownExport.FooterNoHeading | src/utils/recommender.ts:377-386 | the disclaimer and footer hold no section heading |
| MarkdownExport.DocumentHeadings | src/utils/recommender.ts:310-389 | the document's section headings are those of the first min(n, 20) recommendations |
| MarkdownExport.MarkdownHeadings | src/utils/recommender.ts:342-344 | the document has min(n, 20) section headings, the k-th reading "### k. " and the k-th scheme's name |
| MarkdownExport.ExportReportAsMarkdown | src/utils/recommender.ts:310-389 | pushing the header, up to 20 sections and the footer, then joining with newlines, gives `JoinLines(MarkdownLines)` |
| MarkdownExport.PushSection | src/utils/recommender.ts:343-374 | one loop turn appends exactly the section's lines |
| MarkdownExport.PushReasons | src/utils/recommender.ts:361-363 | the reasons loop appends exactly the reason bullets |
| MarkdownExport.PushAlerts | src/utils/recommender.ts:367-370 | the alerts loop appends exactly the alert bullets |
| Backend.BackendCategoryPoints | backend/app.py:62-81 | 25 exactly on an equal category, 10 exactly when the profile's category is a key whose list holds the scheme's, 0 otherwise |
| Backend.BackendRawScore | backend/app.py:29-81 | the sum of the four parts lies in [0, 120] |
| Backend.BackendScore | backend/app.py:84 | an integer in [0, 100], the raw sum rounded down (capped at 100); meeting all four criteria gives 100 |
| Backend.CalculateEligibilityScore | backend/app.py:24-85 | the accumulating procedure returns `BackendScore` |
| Backend.RelatedTablesDiffer | backend/app.py:67-78 | the backend table is the TypeScript table without Disability's two entries and without Disability under Health |
| Backend.DisabilityNoPartialCredit | backend/app.py:79-81 | a Disability applicant never gets the backend's 10-point partial credit |
| Backend.BackendScoreVersusFrontend | backend/app.py:84 | the backend score never exceeds the TypeScript score, and is at most one below it when the category points agree |
| Backend.HalfPointExample | backend/app.py:84 | with a raw sum of 27.5 the TypeScript engine gives 28 and the backend 27 |
| Backend.GenerateReasons | backend/app.py:87-111 | the procedure returns the four criteria sentences, with no headline and no target group |
| Backend.BackendReasonsEmpty | backend/app.py:87-111 | the backend gives no reason exactly when no criterion holds and the state is neither "All" nor the profile's |
| Backend.PerfectAlert | backend/app.py:132-137 | an alert exists exactly from 90 up, high priority, with the backend's perfect-match message |
| Backend.NewnessAlert | backend/app.py:139-144 | an alert exists exactly for new schemes, medium priority, with the backend's newness message |
| Backend.DeadlineNotice | backend/app.py:146-151 | an alert exists exactly for a scheme with a deadline, high priority, naming the deadline |
| Backend.BackendAlertsShape | backend/app.py:131-151 | at most three alerts in the order perfect match, newness, deadline; the perfect match alert exactly from 90 and never a high-eligibility alert; newness exactly for new schemes; deadline exactly for schemes with one; high priority exactly for the non-newness alerts |
| Backend.FarDeadlineAlerts | backend/app.py:146-151 | a deadline more than 90 days away raises the backend's deadline alert but not the TypeScript one |
| Backend.GenerateAlerts | backend/app.py:129-151 | the appending procedure returns `BackendAlerts` |
| Backend.BackendCandidatesMembers | backend/app.py:120-158 | a result is collected exactly when it is the result of an active catalog scheme scoring at least 30 |
| Backend.BackendCandidatesOnce | backend/app.py:120-158 | for a catalog without repeated records, no result is collected twice |
| Backend.BackendRankingKeepsMembers | backend/app.py:161 | sorting neither drops nor adds a result |
| Backend.BackendRecommendationsMembers | backend/app.py:113-161 | a scheme's result is recommended exactly when the scheme is in the catalog, active and scores at least 30, whatever its state |
| Backend.BackendRecommendationsBounds | backend/app.py:121-127 | every recommendation is active and scores at least 30 with its own score |
| Backend.BackendRecommendationsOrder | backend/app.py:161 | for any catalog, recommendations never increase in score and equal scores keep catalog order |
| Backend.BackendRecommendationsDistinct | backend/app.py:120-161 | for a catalog without repeated records, no recommendation appears twice |
| Backend.NoStateGate | backend/app.py:120-127 | an active scheme of another state scoring 30 or more is recommended by the backend and not by the TypeScript engine |
| Backend.BackendSummaryCount | backend/app.py:169 | the summary starts "Found ", ends " government schemes matching your profile", and the number between them reads back as the count |
| Backend.AnalysedCountsDiffer | backend/app.py:166 | the backend's analysed count, the catalog size, exceeds the TypeScript one, the active count, exactly when the catalog has an inactive scheme |
| Backend.GenerateReport | backend/app.py:113-170 | the report carries the timestamp, the profile, the catalog size, the ranked recommendations, their count and the "Found n" summary |

## Left out

- The catalog module (`src/data/schemes`) and `load_schemes` of `backend/app.py` are not part of this model. The catalog is a parameter.
- The Flask routes of `backend/app.py` and the React components of `src/components` and `src/App.tsx` are not part of this model. They do I/O and rendering only.
- `new Date()`, `datetime.now()` and the day count `Math.ceil((deadline - today) / 86400000)` are not modelled. The day count is the parameter `daysUntil` and the timestamp is the parameter `generatedAt`, because both read the clock.
- `toFixed(1)`, Python's `:.1f`, `toLocaleString()` and `new Date(...).toLocaleString()` are the `Types.Formats` parameter. Their locale and rounding behaviour is not modelled.
- Scoring.CalculateEligibilityScore: computes over exact reals, not IEEE doubles. Where the source's rounding of an exact `.5` depends on floating-point error, the model may differ by one.
- Backend.CalculateEligibilityScore: computes over exact reals. Under doubles `floor(score / 100 * 100)` can lose one point, for example 57 becomes 56. The model gives the exact floor.
- Validation.ValidateProfile: takes the age and income as integers or missing. `NaN`, fractional numbers and non-numeric form input are not modelled; the form converts input before validation.
- Validation.IsWhitespace covers the characters `String.prototype.trim` removes. Strings are sequences of characters with no UTF-16 surrogate handling.
- Ranking.SortByScore: the built-in sorts (`Array.prototype.sort`, Python's `list.sort`) are stable. Both are modelled by one stable insertion sort, which is the only stable descending order (`Ranking.StableSortIsUnique`), so the comparison steps the built-ins take are not modelled.
- Scoring.CategoryPoints: a profile category that names an inherited JavaScript property (`constructor`, `toString`, `__proto__`) makes the lookup `relatedCategories[profile.category]?.includes` at src/utils/recommender.ts:70 throw a TypeError; the model gives 0 points there. The form's category list never offers such a value.
- Statistics.Tally: the category-count object is an association list in key-insertion order. JavaScript's special ordering of integer-like keys and inherited keys such as `__proto__` are not modelled.
- MarkdownExport.MarkdownHeadings and MarkdownExport.DocumentHeadings speak of the document's line sequence before `join('\n')`. A scheme name holding a newline splits its heading across several lines of the exported text; the model does not follow that split.
- Explanation.ReasonText and Backend.BackendReasonText render reasons from tagged data. The ₹ amounts in the income sentence go through the injected formatter.
- Backend.GenerateAlerts is the alert block of `generate_report`, taken out as a method of its own.
