# GPQA score collector and chart layout, modelled in Dafny

The repository has two batch scripts. `scripts/fetch_gpqa.py` (the collector)
scrapes GPQA Diamond percentages for a few frontier models from public pages. It
merges them into a JSON store keyed by model name. A plausibility check rejects any
new score more than 5 percentage points away from the stored one.
`scripts/make_chart.py` (the renderer) reads the store and draws a horizontal bar
chart sorted by score and coloured by provider.

This project models the pure logic of both scripts:

- `scores.dfy` (module `Scores`) holds the store record, the constant tables
  `PROVIDER_BY_MODEL`, `DEFAULT_SEED` and `MAX_DELTA`, and the merge policy `_merge`.
  `Merge` is a reference definition written as a map comprehension.
  `MergeInPlace` is the source's loop, proved equal to it.
- `extraction.dfy` (module `Extraction`) models the score extractor `_extract_scores`.
  It is run on the already-flattened page text. An operational matcher (`MatchAt`,
  `SearchFrom`) is proved equivalent to a declarative reading of the pattern
  (`PatternAt`).
- `collector.dfy` (module `Collector`) models `main` with its I/O taken out. It
  folds the merge over the sources in order, applies the seed fallback, and makes
  the write/no-write decision.
- `chart.dfy` (module `Chart`) models the renderer's non-drawing part: the colour
  lookup, the ascending sort, the colour per bar, the x-axis limits and the
  label positions. A store with no record, or with no scored record, cannot be
  drawn: the source fails on sorting by a missing `score` column, or on the NaN
  upper limit passed to `set_xlim` at scripts/make_chart.py:42. The model
  returns the error `NoScores` in both cases.
- `wrappers.dfy` (module `Wrappers`) holds `Option` and `Result`.

Scores are exact `real` numbers. A record's score is `Option<real>`. The store is
read with `existing.get(model, {}).get("score")`, so a record with no score, or
with a null one, counts as "no prior score".

Two properties of the code that are easy to misread:

- The pattern at scripts/fetch_gpqa.py:79 needs exactly two integer digits
  (`\d{2}`). So an extracted value lies in [0, 99.9]. "100%", "5%" and "12.34%"
  never match where they stand.
- The seed fallback at scripts/fetch_gpqa.py:129 fires whenever the fold ends
  with an empty store. That
  happens exactly when the loaded store was empty and no successful source
  reported a name. A successful source that found nothing counts the same as a
  failed one.

Each source is judged against the running store, not the loaded one. So when
three or more sources report the same model, a second run over the same pages and
date can move its score and rewrite the file (`Collector.RerunCanMoveScore`). The
configured source table lists every model under at most two sources, and for two
the chain of judgements repeats itself. So the configured collector never rewrites
on a rerun (`Collector.CollectRerunStable`). The single merge is idempotent, and so
is a run with one source.

## Model

| member | source | states |
|---|---|---|
| Scores.Merge | scripts/fetch_gpqa.py:98-112 | the result's keys are the old keys plus the reported ones; unreported models keep their record; a reported model either keeps its old record or gets the new score |
| Scores.MergeInPlace | scripts/fetch_gpqa.py:98-112 | the loop that copies the store, visits the updates in any order, skips suspicious jumps and overwrites the rest, computes exactly `Merge` |
| Scores.MergeAcceptsUnscored | scripts/fetch_gpqa.py:101-111 | a model that is absent, or stored without a score, is accepted; its record holds the name, the table's provider or "Unknown", the new score, the date and the source |
| Scores.MergeRejectsJump | scripts/fetch_gpqa.py:101-104 | a new score more than 5.0 from the stored score leaves the stored record exactly as it was |
| Scores.MergeAcceptsWithinTolerance | scripts/fetch_gpqa.py:101-111 | a new score at most 5.0 from the stored one, 5.0 included, overwrites score, date and source, and the provider is looked up again |
| Scores.MergeIdempotent | scripts/fetch_gpqa.py:98-112 | merging the same scores with the same source and date twice gives the same store as merging once |
| Scores.MergeExample | scripts/fetch_gpqa.py:98-112 | a stored 85.6 accepts 84.0 and rejects 95.0, leaving the store unchanged |
| Extraction.FirstDigitWithin | scripts/fetch_gpqa.py:79 | finds the first digit in a window after a position, with only non-digits before it; None exactly when the window holds no digit (the window is the 40 characters the gap allows plus one) |
| Extraction.NumberAtComplete | scripts/fetch_gpqa.py:79-83 | wherever the text holds `dd%` or `dd.d%`, the number is read with exactly the value written there |
| Extraction.NumberAt | scripts/fetch_gpqa.py:79-83 | a number is found only where two digits start; its value lies between 0 and 99.9 |
| Extraction.MatchAt | scripts/fetch_gpqa.py:79 | an anchored match implies the name occurs there, ignoring case, and its value lies between 0 and 99.9 |
| Extraction.MatchAtSound | scripts/fetch_gpqa.py:79 | every anchored match is an instance of the pattern: name, at most 40 non-digits, `dd` or `dd.d`, then `%` |
| Extraction.MatchAtComplete | scripts/fetch_gpqa.py:79 | every instance of the pattern at a position is found there with the same number, so the number starts at the first digit after the name |
| Extraction.SearchFrom | scripts/fetch_gpqa.py:80 | returns the leftmost position where the pattern matches and its number; None when it matches nowhere |
| Extraction.ExtractScores | scripts/fetch_gpqa.py:72-86 | the result's keys are candidate names; a candidate is present exactly when the pattern matches for it; its value is the leftmost match's number, between 0 and 99.9 |
| Extraction.NoInstanceWhereNoMatch | scripts/fetch_gpqa.py:80 | positions where the anchored match fails hold no instance of the pattern, so the search's leftmost hit is the leftmost instance |
| Extraction.ExtractedHasPattern | scripts/fetch_gpqa.py:78-83 | every extracted score is carried by an instance of the pattern for that name, and no instance for that name starts earlier; together with the next row, a candidate is extracted exactly when the pattern holds for it somewhere, and is otherwise absent rather than defaulted |
| Extraction.PatternIsExtracted | scripts/fetch_gpqa.py:78-83 | a candidate for which the pattern holds at some position is extracted; no instance starts before the one whose number is taken, and an instance at that same position has that number |
| Extraction.HundredPercentRejected | scripts/fetch_gpqa.py:79 | "100%" after a name does not match there |
| Extraction.TwoFractionDigitsRejected | scripts/fetch_gpqa.py:79 | "12.34%" after a name does not match there |
| Extraction.CaseAndFirstDigitExample | scripts/fetch_gpqa.py:79 | names match regardless of case; in "gpt-5.1 88.1%" the name GPT-5 fails because its first following digit starts `1 ` |
| Collector.FoldSources | scripts/fetch_gpqa.py:118-127 | after all sources, the keys are the loaded keys plus every name a successful source reported; models nobody reported keep their record; every record is either the loaded one or carries a score some source reported for that model |
| Collector.FoldAppend | scripts/fetch_gpqa.py:120-125 | each source is merged into the running store left by the sources before it; a failed source changes nothing |
| Collector.LaterSourceJudgedAgainstEarlier | scripts/fetch_gpqa.py:125 | with nothing loaded, a first source's 85 is accepted and a second source's 95 is rejected against it |
| Collector.SeedStore | scripts/fetch_gpqa.py:129-139 | the seed store has exactly the seed table's names; each record has the table's score, the provider, today's date and source "seed" |
| Collector.Run | scripts/fetch_gpqa.py:115-147 | the store is written exactly when it differs from the loaded one; it is the fold whenever the fold is non-empty and the seed store otherwise; it is never empty, keeps every loaded model, and a loaded model nobody reported keeps its record; it names only loaded, reported or seed models, and every record is the loaded one, carries a score some source reported for that model, or is that model's seed record |
| Collector.SeedOnlyFromNothing | scripts/fetch_gpqa.py:129-139 | the fold ends empty exactly when the loaded store was empty and no successful source reported anything; the result is then the seed store |
| Collector.RunAtFixpoint | scripts/fetch_gpqa.py:142-147 | when the sources leave a non-empty loaded store as it was, the run keeps it and does not write |
| Collector.NothingReportedNoWrite | scripts/fetch_gpqa.py:142-147 | when no source reports anything, a non-empty loaded store is kept and not written |
| Collector.SeededStoreIsStable | scripts/fetch_gpqa.py:129-147 | a first run in which no source reports a score writes the seed store; a later run like it, on any date, does not rewrite it |
| Collector.StepStable | scripts/fetch_gpqa.py:124-139 | a source applied again to the store it produced, or to the seed store that replaced an empty result, changes nothing |
| Collector.SingleSourceRerunStable | scripts/fetch_gpqa.py:120-147 | with one source, a second run on the same page and date writes nothing |
| Collector.RerunCanMoveScore | scripts/fetch_gpqa.py:120-127 | with three sources reporting 80, 85 and 75 over a stored 70, the first run ends at 75 and a second run ends at 85 and writes |
| Collector.StepAtAgrees | scripts/fetch_gpqa.py:98-112 | a source's merge acts on each name independently: the record under a name afterwards depends only on the record under it before |
| Collector.FoldAtAgrees | scripts/fetch_gpqa.py:118-127 | the loop over the sources, seen from one name, is the sequence of per-name steps |
| Collector.TwoStepsStable | scripts/fetch_gpqa.py:98-127 | two sources applied again to the record they produced leave it unchanged |
| Collector.ThreeStepsStable | scripts/fetch_gpqa.py:118-127 | three sources of which one does not report a name rebuild that name's record on a second pass |
| Collector.FoldRerunFixed | scripts/fetch_gpqa.py:118-127 | three sources with no name reported by all three, folded over the store they produced, give it back |
| Collector.NoNameInAllThree | scripts/fetch_gpqa.py:31-50 | no model is a candidate of all three configured sources |
| Collector.ConfiguredReportsAtMostTwo | scripts/fetch_gpqa.py:31-50 | on the configured sources, every model is reported by at most two |
| Collector.CollectRerunStable | scripts/fetch_gpqa.py:115-147 | running the configured collector again on the same pages and date writes nothing, whatever was loaded |
| Collector.SourceResults | scripts/fetch_gpqa.py:120-124 | one result per configured source, under its name; a failed fetch yields none; a fetched page yields the extractor's scores for that source's candidates, so only candidate names, each score in [0, 99.9] |
| Collector.Collect | scripts/fetch_gpqa.py:115-147 | over the fixed source list, the store is written exactly when changed; the store is the fold over the extracted pages whenever that fold is non-empty (always when the loaded store is non-empty), and the seed store when it is empty, so it is never empty; every loaded model is kept, and one no source lists keeps its record; only candidate or seed names are added; every added or replaced record carries a score in [0, 99.9] |
| Collector.ReportedValuesWithin | scripts/fetch_gpqa.py:118-127 | when every successful source reports scores in a range, every score reported to the fold lies in it |
| Collector.RunWritesPercentages | scripts/fetch_gpqa.py:118-139 | when every reported score is in [0, 99.9], every record a run adds or replaces, seed records included, carries a score in [0, 99.9] |
| Chart.ColorFor | scripts/make_chart.py:31-32 | the colour is always one of the table's colours; a listed provider gets its entry, any other provider gets `#5c6b73` |
| Chart.ColorTable | scripts/make_chart.py:15-21 | OpenAI, Google, xAI, Anthropic and Unknown map to their listed colours; an unlisted provider gets the Unknown colour |
| Chart.SortByScore | scripts/make_chart.py:24-28 | the rows are a permutation of the records in ascending order of score, with missing scores last; ties come in no promised order |
| Chart.InsertSorted | scripts/make_chart.py:27 | inserting a record into rows sorted by score keeps them sorted |
| Chart.MaxScore | scripts/make_chart.py:42 | the highest present score is attained by some record and bounds every present score; None exactly when no record has a score |
| Chart.XMax | scripts/make_chart.py:42 | the upper limit is at least 92 and at least the top score plus 2, and equals one of the two |
| Chart.Colors | scripts/make_chart.py:37 | one colour per row, the colour of that row's provider, in row order |
| Chart.Labels | scripts/make_chart.py:46-47 | one label per row, on that row's index, at x = score + 0.4 |
| Chart.UpperLimitAttained | scripts/make_chart.py:42 | unless the floor 92 applies, the upper limit is exactly 2 above some record's score |
| Chart.ComputeLayout | scripts/make_chart.py:35-47 | fails exactly when no record has a score; otherwise the rows are the sorted permutation, colours and labels follow the rows, the x axis starts at 60 and ends at max(top + 2, 92), above every score |
| Chart.TwoRecordLayout | scripts/make_chart.py:26-42 | of two scored records stored higher first, the lower becomes the first bar and the upper limit depends on the higher score only |
| Chart.TwoRecordExample | scripts/make_chart.py:26-42 | scores 91.9 and 85.6 give bars 85.6 then 91.9, OpenAI and Google colours, and an upper limit of 93.9 |

## Left out

- HTTP fetching (`requests.get`, status check, timeout) is network I/O. Each source's outcome is an input: `None` for a failed fetch, the page text otherwise.
- BeautifulSoup's `get_text` is a foreign HTML library. The extractor takes the flattened text as its input.
- `_load_existing`, JSON reading and writing, `mkdir`, `print` and `date.today()` are file, console and clock I/O. The loaded store and today's date are parameters. The run returns the new store and a "write" flag.
- The URLs in the source table are kept as data but never used, since fetching is not modelled.
- Floating point: scores are exact reals. IEEE rounding in `abs(score - prev)` can push a difference that is mathematically 5.0 to either side of the tolerance.
- Python's `\d` also matches non-ASCII digits, and `(?i)` folds Unicode case. The model uses ASCII digits and ASCII letter folding only.
- The `ValueError` branch after `float(match.group(1))` is unreachable for ASCII digits and is not modelled.
- Stored records are typed: a stored score is a number or absent. The source's untyped JSON admits more. A numeric string or a boolean passes `float(prev)` at scripts/fetch_gpqa.py:102 and is compared as a number. A non-numeric string, or a stored entry that is not an object, makes `_merge` raise, but only when the same source reports that model; `main` then skips that whole source. Stored fields other than the five known ones are not modelled.
- The renderer's input is the stored JSON object's values in file order. Loading and parsing the file is left out.
- Drawing, figure size, grid, title, axis label text, `savefig`, and the `f"{score:.1f}%"` label text are rendering glue. Only the label positions are modelled.
