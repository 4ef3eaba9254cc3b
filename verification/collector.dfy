/** The collector run (scripts/fetch_gpqa.py: SOURCES and main) with its I/O
    taken out: the loaded store, the outcome of each source and today's date are
    parameters, and the result is the new store plus the decision to write it. */
module Collector {
  import opened Wrappers
  import opened Scores
  import Extraction

  /** A page to scrape and the model names to look for on it. */
  datatype Source = Source(name: string, url: string, candidates: seq<string>)

  const Sources: seq<Source> := [
    Source("vals_ai_2025-09-20",
           "https://www.vals.ai/benchmarks/gpqa-09-20-2025",
           ["Grok 4", "GPT-5", "Gemini 2.5 Pro"]),
    Source("moneycontrol_gemini3_announce",
           "https://www.moneycontrol.com/technology/"
           + "google-gemini-3-0-announced-here-s-how-it-compares-to-gemini-2-5-pro-and-gpt-5-1-article-13683635.html",
           ["Gemini 3.0", "Gemini 2.5 Pro", "GPT-5.1"]),
    Source("the_decoder_gpt5.1_launch",
           "https://the-decoder.com/openai-launches-gpt-5-1-api-with-improved-coding-capabilities-and-new-developer-features/",
           ["GPT-5.1", "GPT-5"])
  ]

  /** What one source contributed: None when fetching it failed, otherwise the
      scores extracted from it. */
  datatype SourceResult = SourceResult(name: string, found: Option<Updates>)

  /** The new store and whether it is written back. */
  datatype Outcome = Outcome(store: Store, write: bool)

  /** All model names some successful source reported. */
  function ReportedKeys(results: seq<SourceResult>): set<string>
    decreases |results|
  {
    if |results| == 0 then {}
    else
      var last := results[|results| - 1];
      ReportedKeys(results[..|results| - 1]) + (if last.found.Some? then last.found.value.Keys else {})
  }

  /** All scores some successful source reported for `model`. */
  function ReportedValues(results: seq<SourceResult>, model: string): set<real>
    decreases |results|
  {
    if |results| == 0 then {}
    else
      var last := results[|results| - 1];
      ReportedValues(results[..|results| - 1], model)
        + (if last.found.Some? && model in last.found.value then {last.found.value[model]} else {})
  }

  /** The merge loop over the sources in order. Each successful source is merged
      into the running store, so it is judged against what earlier sources left,
      not against the store as loaded; a failed source is skipped. */
  function FoldSources(existing: Store, results: seq<SourceResult>, today: string): (combined: Store)
    decreases |results|
    ensures combined.Keys == existing.Keys + ReportedKeys(results)
    ensures forall m :: m in existing && m !in ReportedKeys(results) ==> combined[m] == existing[m]
    ensures forall m :: m in combined ==>
              || (m in existing && combined[m] == existing[m])
              || (combined[m].score.Some? && combined[m].score.value in ReportedValues(results, m))
  {
    if |results| == 0 then existing
    else
      Step(FoldSources(existing, results[..|results| - 1], today), results[|results| - 1], today)
  }

  /** One iteration of the loop over the sources. */
  function Step(combined: Store, r: SourceResult, today: string): Store {
    match r.found
    case None => combined
    case Some(updates) => Merge(combined, updates, r.name, today)
  }

  /** Each source is merged into the store the sources before it left. */
  lemma FoldAppend(existing: Store, results: seq<SourceResult>, r: SourceResult, today: string)
    ensures FoldSources(existing, results + [r], today) == Step(FoldSources(existing, results, today), r, today)
  {
    assert (results + [r])[..|results|] == results;
  }

  /** How one source changes the score of a model it reports, when that model has a score. */
  lemma StepScore(combined: Store, model: string, s: real, name: string, today: string)
    requires model in combined && combined[model].score.Some?
    ensures var next := Step(combined, SourceResult(name, Some(map[model := s])), today);
      && model in next
      && next[model].score == if Accepts(combined[model].score, s) then Some(s) else combined[model].score
  {
  }

  /** The store built from the seed table, every record marked as seed data. */
  function SeedStore(today: string): (seeded: Store)
    ensures seeded.Keys == DefaultSeed.Keys
    ensures forall m :: m in seeded ==>
              && seeded[m].model == m
              && seeded[m].provider == ProviderFor(m)
              && seeded[m].score == Some(DefaultSeed[m])
              && seeded[m].asOf == today
              && seeded[m].source == "seed"
  {
    map m | m in DefaultSeed :: AcceptedRecord(m, DefaultSeed[m], SeedSource, today)
  }

  /** The body of `main` after loading: fold the sources, fall back to the seed
      table when the result is empty, and write only if something changed. */
  function Run(existing: Store, results: seq<SourceResult>, today: string): (out: Outcome)
    ensures out.write <==> out.store != existing
    ensures out.store != map[]
    ensures existing.Keys <= out.store.Keys
    ensures out.store.Keys <= existing.Keys + ReportedKeys(results) + DefaultSeed.Keys
    ensures FoldSources(existing, results, today) != map[] ==> out.store == FoldSources(existing, results, today)
    ensures FoldSources(existing, results, today) == map[] ==> out.store == SeedStore(today)
    ensures forall m :: m in existing && m !in ReportedKeys(results) ==> out.store[m] == existing[m]
    ensures forall m :: m in out.store ==>
              || (m in existing && out.store[m] == existing[m])
              || (out.store[m].score.Some? && out.store[m].score.value in ReportedValues(results, m))
              || (m in DefaultSeed && out.store[m] == AcceptedRecord(m, DefaultSeed[m], SeedSource, today))
  {
    var folded := FoldSources(existing, results, today);
    var combined := if |folded| == 0 then SeedStore(today) else folded;
    assert "GPT-5" in SeedStore(today);  // the seed table is not empty
    Outcome(combined, combined != existing)
  }

  /** The seed fallback applies exactly when the loaded store was empty and no
      successful source reported any score; it then yields the seed table. */
  lemma SeedOnlyFromNothing(existing: Store, results: seq<SourceResult>, today: string)
    ensures |FoldSources(existing, results, today)| == 0 <==> existing == map[] && ReportedKeys(results) == {}
    ensures existing == map[] && ReportedKeys(results) == {} ==> Run(existing, results, today).store == SeedStore(today)
  {
    var folded := FoldSources(existing, results, today);
    if |folded| == 0 {
      assert folded.Keys == {};
      assert existing.Keys == {};
    }
    if existing == map[] && ReportedKeys(results) == {} {
      assert folded.Keys == {};
    }
  }

  /** A run in which no source reports a score leaves a non-empty store
      untouched and does not write it. */
  lemma NothingReportedNoWrite(existing: Store, results: seq<SourceResult>, today: string)
    requires |existing| > 0
    requires ReportedKeys(results) == {}
    ensures Run(existing, results, today) == Outcome(existing, false)
  {
    var folded := FoldSources(existing, results, today);
    assert folded.Keys == existing.Keys;
    assert forall m | m in folded :: folded[m] == existing[m];
    RunAtFixpoint(existing, results, today);
  }

  /** After a first run has fallen back to the seed table, a later run (on any
      day) in which no source reports a score leaves the file alone. */
  lemma SeededStoreIsStable(firstDay: string, laterDay: string, results: seq<SourceResult>)
    requires ReportedKeys(results) == {}
    ensures Run(map[], results, firstDay) == Outcome(SeedStore(firstDay), true)
    ensures Run(SeedStore(firstDay), results, laterDay) == Outcome(SeedStore(firstDay), false)
  {
    SeedOnlyFromNothing(map[], results, firstDay);
    assert "GPT-5" in SeedStore(firstDay);
    NothingReportedNoWrite(SeedStore(firstDay), results, laterDay);
  }

  /** A later source is judged against what an earlier source stored in the same
      run: with nothing loaded, 85 is accepted and a following 95 is rejected. */
  lemma LaterSourceJudgedAgainstEarlier(today: string)
    ensures var results := [SourceResult("a", Some(map["GPT-5" := 85.0])), SourceResult("b", Some(map["GPT-5" := 95.0]))];
      FoldSources(map[], results, today)["GPT-5"].score == Some(85.0)
  {
    var a := SourceResult("a", Some(map["GPT-5" := 85.0]));
    var b := SourceResult("b", Some(map["GPT-5" := 95.0]));
    assert [a, b][..1] == [a];
    assert [a][..0] == [];
    var afterA := FoldSources(map[], [a], today);
    assert afterA == Merge(map[], map["GPT-5" := 85.0], "a", today);
    assert afterA["GPT-5"].score == Some(85.0);
    assert !Accepts(PriorScore(afterA, "GPT-5"), 95.0);
  }

  /** One source applied again to the store it produced changes nothing; nor
      does a source whose step left the store empty, since it reported nothing. */
  lemma StepStable(existing: Store, first: Store, r: SourceResult, today: string)
    requires first == Step(existing, r, today) || |Step(existing, r, today)| == 0
    ensures Step(first, r, today) == first
  {
    if r.found.Some? {
      var updates := r.found.value;
      if first == Step(existing, r, today) {
        MergeIdempotent(existing, updates, r.name, today);
      } else {
        assert updates.Keys <= Step(existing, r, today).Keys;
        assert Merge(first, updates, r.name, today).Keys == first.Keys;
      }
    }
  }

  /** A run over a single source yields that source's step, or the seed store
      when the step leaves the store empty. */
  lemma RunSingle(existing: Store, r: SourceResult, today: string)
    ensures var folded := Step(existing, r, today);
      Run(existing, [r], today).store == if |folded| == 0 then SeedStore(today) else folded
  {
    assert [] + [r] == [r];
    FoldAppend(existing, [], r, today);
  }

  /** A run whose sources leave a non-empty loaded store as it was writes nothing. */
  lemma RunAtFixpoint(existing: Store, results: seq<SourceResult>, today: string)
    requires existing != map[]
    requires FoldSources(existing, results, today) == existing
    ensures Run(existing, results, today) == Outcome(existing, false)
  {
    assert |existing| != 0;
  }

  /** With a single source, running the collector again on the same page and
      date finds nothing to write. */
  lemma SingleSourceRerunStable(existing: Store, r: SourceResult, today: string)
    ensures var first := Run(existing, [r], today).store;
      Run(first, [r], today) == Outcome(first, false)
  {
    RunSingle(existing, r, today);
    var folded := Step(existing, r, today);
    var first := if |folded| == 0 then SeedStore(today) else folded;
    StepStable(existing, first, r, today);
    RunSingle(first, r, today);
    RunAtFixpoint(first, [r], today);
  }

  lemma FoldThree(existing: Store, a: SourceResult, b: SourceResult, c: SourceResult, today: string)
    ensures FoldSources(existing, [a, b, c], today) == Step(Step(Step(existing, a, today), b, today), c, today)
  {
    FoldAppend(existing, [], a, today);
    FoldAppend(existing, [a], b, today);
    FoldAppend(existing, [a, b], c, today);
    assert [] + [a] == [a] && [a] + [b] == [a, b] && [a, b] + [c] == [a, b, c];
  }

  /** The score a model ends with after three single-score sources. */
  lemma ThreeStepScore(existing: Store, m: string, x: real, y: real, z: real, today: string)
    requires m in existing && existing[m].score.Some?
    ensures var fold := FoldSources(existing, [SourceResult("a", Some(map[m := x])),
                                               SourceResult("b", Some(map[m := y])),
                                               SourceResult("c", Some(map[m := z]))], today);
      var p := existing[m].score;
      var p1 := if Accepts(p, x) then Some(x) else p;
      var p2 := if Accepts(p1, y) then Some(y) else p1;
      && m in fold
      && fold[m].score == if Accepts(p2, z) then Some(z) else p2
  {
    var a := SourceResult("a", Some(map[m := x]));
    var b := SourceResult("b", Some(map[m := y]));
    var c := SourceResult("c", Some(map[m := z]));
    FoldThree(existing, a, b, c, today);
    StepScore(existing, m, x, "a", today);
    var s1 := Step(existing, a, today);
    StepScore(s1, m, y, "b", today);
    var s2 := Step(s1, b, today);
    StepScore(s2, m, z, "c", today);
  }

  /** When three or more sources report the same model, a rerun on the same
      pages can move its score: each source is judged against the running
      store, so the chain of accepted values depends on where the run starts.
      A stored 70 and sources reporting 80, 85 and 75 end at 75; a second run
      from 75 accepts 80 and 85 and rejects 75, ending at 85, and writes the
      file again. `Sources` lists every model under at most two sources, so the
      configured collector never does this (`CollectRerunStable`). */
  lemma RerunCanMoveScore(today: string)
    ensures var results := [SourceResult("a", Some(map["GPT-5" := 80.0])),
                            SourceResult("b", Some(map["GPT-5" := 85.0])),
                            SourceResult("c", Some(map["GPT-5" := 75.0]))];
      var first := Run(map["GPT-5" := AcceptedRecord("GPT-5", 70.0, "seed", today)], results, today);
      var second := Run(first.store, results, today);
      && first.store["GPT-5"].score == Some(75.0)
      && second.store["GPT-5"].score == Some(85.0)
      && second.write
  {
    var m := "GPT-5";
    var results := [SourceResult("a", Some(map[m := 80.0])),
                    SourceResult("b", Some(map[m := 85.0])),
                    SourceResult("c", Some(map[m := 75.0]))];
    var start := map[m := AcceptedRecord(m, 70.0, "seed", today)];
    ThreeStepScore(start, m, 80.0, 85.0, 75.0, today);
    assert !Accepts(Some(70.0), 80.0) && !Accepts(Some(70.0), 85.0) && Accepts(Some(70.0), 75.0);
    var first := FoldSources(start, results, today);
    assert first[m].score == Some(75.0);
    ThreeStepScore(first, m, 80.0, 85.0, 75.0, today);
    assert Accepts(Some(75.0), 80.0) && Accepts(Some(80.0), 85.0) && !Accepts(Some(85.0), 75.0);
    var second := FoldSources(first, results, today);
    assert second[m].score == Some(85.0);
    assert second != first;
  }

  /** The scores each source contributes when its page text is known (None for a
      page that could not be fetched). */
  function SourceResults(pages: seq<Option<string>>): (results: seq<SourceResult>)
    requires |pages| == |Sources|
    ensures |results| == |Sources|
    ensures forall k :: 0 <= k < |results| ==> results[k].name == Sources[k].name
    ensures forall k :: 0 <= k < |results| ==> (results[k].found.Some? <==> pages[k].Some?)
    ensures forall k :: 0 <= k < |results| && results[k].found.Some? ==>
              results[k].found.value.Keys <= set n | n in Sources[k].candidates
    ensures forall k :: 0 <= k < |results| && pages[k].Some? ==>
              results[k].found == Some(Extraction.ExtractScores(pages[k].value, Sources[k].candidates))
    ensures forall k, n :: 0 <= k < |results| && results[k].found.Some? && n in results[k].found.value ==>
              0.0 <= results[k].found.value[n] <= 99.9
  {
    seq(|Sources|, k requires 0 <= k < |Sources| =>
      SourceResult(Sources[k].name,
        match pages[k]
        case None => None
        case Some(text) => Some(Extraction.ExtractScores(text, Sources[k].candidates))))
  }

  /** Every model name listed as a candidate by some source. */
  function CandidateNames(): set<string> {
    set k, n | 0 <= k < |Sources| && n in Sources[k].candidates :: n
  }

  /** When each successful source reports only names from `allowed`, so does the fold. */
  lemma {:induction false} ReportedWithin(results: seq<SourceResult>, allowed: set<string>)
    requires forall k :: 0 <= k < |results| && results[k].found.Some? ==> results[k].found.value.Keys <= allowed
    ensures ReportedKeys(results) <= allowed
    decreases |results|
  {
    if |results| > 0 {
      var k := |results| - 1;
      ReportedWithin(results[..k], allowed);
    }
  }

  /** When each successful source reports only scores in [lo, hi], every
      reported score lies there. */
  lemma {:induction false} ReportedValuesWithin(results: seq<SourceResult>, lo: real, hi: real)
    requires forall k, n :: 0 <= k < |results| && results[k].found.Some? && n in results[k].found.value ==>
               lo <= results[k].found.value[n] <= hi
    ensures forall m, v :: v in ReportedValues(results, m) ==> lo <= v <= hi
    decreases |results|
  {
    if |results| > 0 {
      ReportedValuesWithin(results[..|results| - 1], lo, hi);
    }
  }

  /** Every record of `store` that is not the one loaded carries a percentage in [0, 99.9]. */
  predicate ChangesArePercentages(existing: Store, store: Store) {
    forall m :: m in store && !(m in existing && store[m] == existing[m]) ==>
      store[m].score.Some? && 0.0 <= store[m].score.value <= 99.9
  }

  /** When every reported score is a percentage in [0, 99.9], every record a run
      adds or replaces carries such a percentage; the seed scores are ones too. */
  lemma RunWritesPercentages(existing: Store, results: seq<SourceResult>, today: string)
    requires forall m, v :: v in ReportedValues(results, m) ==> 0.0 <= v <= 99.9
    ensures ChangesArePercentages(existing, Run(existing, results, today).store)
  {
    assert forall m :: m in DefaultSeed ==> 0.0 <= DefaultSeed[m] <= 99.9;
  }

  /** The whole collector run over the fixed source list. The resulting store
      names only models that were loaded, appear as candidates, or come from the
      seed table; a loaded model no source lists keeps its record; a run whose
      fold is empty, a first run with nothing found, writes the seed store; and
      every record the run adds or replaces carries a percentage in [0, 99.9]. */
  function Collect(existing: Store, pages: seq<Option<string>>, today: string): (out: Outcome)
    requires |pages| == |Sources|
    ensures out.write <==> out.store != existing
    ensures existing.Keys <= out.store.Keys
    ensures out.store.Keys <= existing.Keys + CandidateNames() + DefaultSeed.Keys
    // a corollary of the next two clauses, since the fold keeps every loaded key
    ensures existing != map[] ==> out.store == FoldSources(existing, SourceResults(pages), today)
    ensures FoldSources(existing, SourceResults(pages), today) != map[] ==>
              out.store == FoldSources(existing, SourceResults(pages), today)
    ensures FoldSources(existing, SourceResults(pages), today) == map[] ==> out.store == SeedStore(today)
    ensures out.store != map[]
    ensures forall m :: m in existing && m !in CandidateNames() ==> out.store[m] == existing[m]
    ensures ChangesArePercentages(existing, out.store)
  {
    var results := SourceResults(pages);
    ReportedWithin(results, CandidateNames());
    ReportedValuesWithin(results, 0.0, 99.9);
    RunWritesPercentages(existing, results, today);
    assert existing != map[] ==> FoldSources(existing, results, today) != map[] by {
      if existing != map[] {
        var m :| m in existing;
        assert m in FoldSources(existing, results, today);
      }
    }
    Run(existing, results, today)
  }

  /** The record stored under `m`, if any. */
  function Lookup(store: Store, m: string): Option<Record> {
    if m in store then Some(store[m]) else None
  }

  /** Stores with the same record, or none, under every name are equal. */
  lemma LookupExtensional(a: Store, b: Store)
    requires forall m :: Lookup(a, m) == Lookup(b, m)
    ensures a == b
  {
    assert a.Keys == b.Keys by {
      forall m ensures m in a <==> m in b {
        assert Lookup(a, m) == Lookup(b, m);
      }
    }
    forall m | m in a ensures a[m] == b[m] {
      assert Lookup(a, m) == Lookup(b, m);
    }
  }

  /** Source `r` reported a score for `m`. */
  predicate Reports(r: SourceResult, m: string) {
    r.found.Some? && m in r.found.value
  }

  /** One source's effect on the record under `m` alone. */
  function StepAt(x: Option<Record>, r: SourceResult, m: string, today: string): Option<Record> {
    if !Reports(r, m) then x
    else
      var prior := if x.Some? then x.value.score else None;
      if Accepts(prior, r.found.value[m]) then Some(AcceptedRecord(m, r.found.value[m], r.name, today))
      else x
  }

  /** A step acts on each name independently: the record under `m` afterwards
      depends only on the record under `m` before. */
  lemma StepAtAgrees(store: Store, r: SourceResult, m: string, today: string)
    ensures Lookup(Step(store, r, today), m) == StepAt(Lookup(store, m), r, m, today)
  {
  }

  /** The loop over the sources, seen from the record under `m` alone. */
  function FoldAt(x: Option<Record>, results: seq<SourceResult>, m: string, today: string): Option<Record>
    decreases |results|
  {
    if |results| == 0 then x
    else StepAt(FoldAt(x, results[..|results| - 1], m, today), results[|results| - 1], m, today)
  }

  lemma {:induction false} FoldAtAgrees(existing: Store, results: seq<SourceResult>, m: string, today: string)
    ensures Lookup(FoldSources(existing, results, today), m) == FoldAt(Lookup(existing, m), results, m, today)
    decreases |results|
  {
    if |results| > 0 {
      var k := |results| - 1;
      FoldAtAgrees(existing, results[..k], m, today);
      StepAtAgrees(FoldSources(existing, results[..k], today), results[k], m, today);
    }
  }

  lemma FoldAtThree(x: Option<Record>, results: seq<SourceResult>, m: string, today: string)
    requires |results| == 3
    ensures FoldAt(x, results, m, today)
            == StepAt(StepAt(StepAt(x, results[0], m, today), results[1], m, today), results[2], m, today)
  {
    var one := results[..1];
    var two := results[..2];
    assert two[..1] == one && one[..0] == [];
    assert FoldAt(x, one, m, today) == StepAt(x, results[0], m, today);
    assert FoldAt(x, two, m, today) == StepAt(FoldAt(x, one, m, today), results[1], m, today);
    assert results[..|results| - 1] == two;
  }

  /** Two sources applied a second time to the record they produced leave it as
      it is: whichever of them wrote last accepts its own value again, and a
      rejection repeats against the same record. */
  lemma TwoStepsStable(x: Option<Record>, a: SourceResult, b: SourceResult, m: string, today: string)
    ensures var once := StepAt(StepAt(x, a, m, today), b, m, today);
      StepAt(StepAt(once, a, m, today), b, m, today) == once
  {
  }

  /** Three sources of which one does not report `m` rebuild, on a second pass,
      the record they built under `m` on the first. */
  lemma ThreeStepsStable(x: Option<Record>, r0: SourceResult, r1: SourceResult, r2: SourceResult, m: string, today: string)
    requires !Reports(r0, m) || !Reports(r1, m) || !Reports(r2, m)
    ensures var once := StepAt(StepAt(StepAt(x, r0, m, today), r1, m, today), r2, m, today);
      StepAt(StepAt(StepAt(once, r0, m, today), r1, m, today), r2, m, today) == once
  {
    if !Reports(r0, m) {
      TwoStepsStable(x, r1, r2, m, today);
    } else if !Reports(r1, m) {
      TwoStepsStable(x, r0, r2, m, today);
    } else {
      TwoStepsStable(x, r0, r1, m, today);
    }
  }

  /** Folding three sources, none reporting a name all three report, over the
      store they produced gives that store back. */
  lemma FoldRerunFixed(existing: Store, results: seq<SourceResult>, today: string)
    requires |results| == 3
    requires forall m :: !Reports(results[0], m) || !Reports(results[1], m) || !Reports(results[2], m)
    ensures var once := FoldSources(existing, results, today);
      FoldSources(once, results, today) == once
  {
    var once := FoldSources(existing, results, today);
    forall m ensures Lookup(FoldSources(once, results, today), m) == Lookup(once, m) {
      FoldAtAgrees(once, results, m, today);
      FoldAtAgrees(existing, results, m, today);
      FoldAtThree(Lookup(once, m), results, m, today);
      FoldAtThree(Lookup(existing, m), results, m, today);
      ThreeStepsStable(Lookup(existing, m), results[0], results[1], results[2], m, today);
    }
    LookupExtensional(FoldSources(once, results, today), once);
  }

  /** No model is a candidate of all three configured sources. */
  lemma NoNameInAllThree()
    ensures forall m :: !(m in Sources[0].candidates && m in Sources[1].candidates && m in Sources[2].candidates)
  {
  }

  /** On the configured sources, every model is reported by at most two of them. */
  lemma ConfiguredReportsAtMostTwo(pages: seq<Option<string>>)
    requires |pages| == |Sources|
    ensures var results := SourceResults(pages);
      forall m :: !Reports(results[0], m) || !Reports(results[1], m) || !Reports(results[2], m)
  {
    NoNameInAllThree();
    var results := SourceResults(pages);
    forall m ensures !Reports(results[0], m) || !Reports(results[1], m) || !Reports(results[2], m) {
      if Reports(results[0], m) && Reports(results[1], m) {
        assert m in Sources[0].candidates && m in Sources[1].candidates;
      }
    }
  }

  /** Running the configured collector again on the same pages and date finds
      nothing to write. */
  lemma CollectRerunStable(existing: Store, pages: seq<Option<string>>, today: string)
    requires |pages| == |Sources|
    ensures !Collect(Collect(existing, pages, today).store, pages, today).write
  {
    var results := SourceResults(pages);
    var first := Collect(existing, pages, today).store;
    if FoldSources(existing, results, today) == map[] {
      SeedOnlyFromNothing(existing, results, today);
      assert "GPT-5" in first;
      NothingReportedNoWrite(first, results, today);
    } else {
      ConfiguredReportsAtMostTwo(pages);
      FoldRerunFixed(existing, results, today);
      RunAtFixpoint(first, results, today);
    }
  }
}
