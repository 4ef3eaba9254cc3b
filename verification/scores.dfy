/** The score store of the collector and its merge policy
    (scripts/fetch_gpqa.py: PROVIDER_BY_MODEL, DEFAULT_SEED, MAX_DELTA, _merge). */
module Scores {
  import opened Wrappers

  /** One entry of the store. The score is optional: a record read back from disk
      may have no `score` field, or a null one, and then counts as unscored. */
  datatype Record = Record(model: string, provider: string, score: Option<real>, asOf: string, source: string)

  /** The persisted store: model name to record. */
  type Store = map<string, Record>

  /** Scores extracted from one source: model name to percentage. */
  type Updates = map<string, real>

  /** Largest accepted change of a stored score, in percentage points. */
  const MaxDelta: real := 5.0

  const UnknownProvider: string := "Unknown"

  /** Marker stored as `source` for records that come from the seed table. */
  const SeedSource: string := "seed"

  const ProviderByModel: map<string, string> := map[
    "Gemini 3.0" := "Google",
    "Gemini 2.5 Pro" := "Google",
    "GPT-5.1" := "OpenAI",
    "GPT-5" := "OpenAI",
    "Grok 4" := "xAI"
  ]

  /** Fallback scores for a first run that found nothing. */
  const DefaultSeed: map<string, real> := map[
    "Gemini 3.0" := 91.9,
    "GPT-5.1" := 88.1,
    "Grok 4" := 88.1,
    "Gemini 2.5 Pro" := 86.4,
    "GPT-5" := 85.6
  ]

  function Abs(x: real): real {
    if x < 0.0 then -x else x
  }

  /** The provider label of a model, "Unknown" for a model outside the table. */
  function ProviderFor(model: string): string {
    if model in ProviderByModel then ProviderByModel[model] else UnknownProvider
  }

  /** The score currently stored for `model`; None when the model is absent
      or its record carries no score. */
  function PriorScore(existing: Store, model: string): Option<real> {
    if model in existing then existing[model].score else None
  }

  /** The plausibility check: a new score is taken unless there is a prior score
      from which it differs by more than MaxDelta. */
  predicate Accepts(prior: Option<real>, score: real) {
    prior.None? || Abs(score - prior.value) <= MaxDelta
  }

  /** The record written for an accepted score. */
  function AcceptedRecord(model: string, score: real, source: string, asOf: string): Record {
    Record(model, ProviderFor(model), Some(score), asOf, source)
  }

  /** The record `_merge` leaves under `m`: the accepted record for a plausible
      update, the stored record otherwise. */
  function Resolve(existing: Store, updates: Updates, source: string, asOf: string, m: string): Record
    requires m in existing || m in updates
  {
    if m in updates && Accepts(PriorScore(existing, m), updates[m])
    then AcceptedRecord(m, updates[m], source, asOf)
    else existing[m]
  }

  /** Merges one source's scores into the store. Every update is judged against
      `existing`, the store as passed in, so the result does not depend on the
      order in which the updates are visited. */
  function Merge(existing: Store, updates: Updates, source: string, asOf: string): (merged: Store)
    ensures merged.Keys == existing.Keys + updates.Keys
    ensures forall m :: m in existing && m !in updates ==> merged[m] == existing[m]
    ensures forall m :: m in updates ==>
              merged[m].score == Some(updates[m]) || (m in existing && merged[m] == existing[m])
  {
    map m | m in existing.Keys + updates.Keys :: Resolve(existing, updates, source, asOf, m)
  }

  /** The loop of `_merge`: start from a copy of `existing`, visit the update keys
      in some order, skip suspicious jumps and overwrite the rest. */
  method MergeInPlace(existing: Store, updates: Updates, source: string, asOf: string)
    returns (merged: Store)
    ensures merged == Merge(existing, updates, source, asOf)
  {
    merged := existing;
    var pending := updates.Keys;
    while pending != {}
      invariant pending <= updates.Keys
      invariant merged.Keys == existing.Keys + (updates.Keys - pending)
      invariant forall m :: m in merged && m in pending ==> merged[m] == existing[m]
      invariant forall m :: m in merged && m !in pending ==> merged[m] == Resolve(existing, updates, source, asOf, m)
      decreases pending
    {
      var model :| model in pending;
      var score := updates[model];
      var prev := PriorScore(existing, model);
      if prev.Some? && Abs(score - prev.value) > MaxDelta {
        // a suspicious jump: the copied record stays
        assert merged[model] == Resolve(existing, updates, source, asOf, model);
      } else {
        merged := merged[model := AcceptedRecord(model, score, source, asOf)];
      }
      pending := pending - {model};
    }
    MergeAgrees(existing, updates, source, asOf, merged);
  }

  /** A store with the merged keys that resolves every key as `_merge` does is the merge. */
  lemma MergeAgrees(existing: Store, updates: Updates, source: string, asOf: string, merged: Store)
    requires merged.Keys == existing.Keys + updates.Keys
    requires forall m :: m in merged ==> merged[m] == Resolve(existing, updates, source, asOf, m)
    ensures merged == Merge(existing, updates, source, asOf)
  {
    var expected := Merge(existing, updates, source, asOf);
    assert merged.Keys == expected.Keys;
  }

  /** A model without a prior score (absent, or stored without a score) is
      accepted unconditionally, with a record built from the table and the arguments. */
  lemma MergeAcceptsUnscored(existing: Store, updates: Updates, source: string, asOf: string, m: string)
    requires m in updates
    requires m !in existing || existing[m].score.None?
    ensures var r := Merge(existing, updates, source, asOf)[m];
      && r.model == m
      && r.provider == (if m in ProviderByModel then ProviderByModel[m] else "Unknown")
      && r.score == Some(updates[m])
      && r.asOf == asOf
      && r.source == source
  {
  }

  /** A score more than MaxDelta away from the prior one is rejected and the
      stored record is kept exactly as it was. */
  lemma MergeRejectsJump(existing: Store, updates: Updates, source: string, asOf: string, m: string)
    requires m in updates && m in existing && existing[m].score.Some?
    requires Abs(updates[m] - existing[m].score.value) > 5.0
    ensures Merge(existing, updates, source, asOf)[m] == existing[m]
  {
  }

  /** A score within MaxDelta of the prior one (the boundary included) overwrites
      score, date and source, and the provider is looked up afresh. */
  lemma MergeAcceptsWithinTolerance(existing: Store, updates: Updates, source: string, asOf: string, m: string)
    requires m in updates && m in existing && existing[m].score.Some?
    requires Abs(updates[m] - existing[m].score.value) <= 5.0
    ensures var r := Merge(existing, updates, source, asOf)[m];
      && r.model == m
      && r.provider == ProviderFor(m)
      && r.score == Some(updates[m])
      && r.asOf == asOf
      && r.source == source
  {
  }

  /** Merging the same scores with the same source and date a second time
      changes nothing: an accepted score is within tolerance of itself, and a
      rejected one meets the same prior score again. */
  lemma MergeIdempotent(existing: Store, updates: Updates, source: string, asOf: string)
    ensures var once := Merge(existing, updates, source, asOf);
      Merge(once, updates, source, asOf) == once
  {
    var once := Merge(existing, updates, source, asOf);
    var twice := Merge(once, updates, source, asOf);
    forall m | m in twice
      ensures twice[m] == once[m]
    {
      if m in updates {
        if Accepts(PriorScore(existing, m), updates[m]) {
          assert once[m] == AcceptedRecord(m, updates[m], source, asOf);
          assert PriorScore(once, m) == Some(updates[m]);
        } else {
          assert once[m] == existing[m];
          assert PriorScore(once, m) == PriorScore(existing, m);
        }
      }
    }
    assert twice.Keys == once.Keys;
  }

  /** The worked example: a stored 85.6 accepts 84.0 and rejects 95.0. */
  lemma MergeExample(asOf: string)
    ensures var prior := map["GPT-5" := Record("GPT-5", "OpenAI", Some(85.6), "2025-11-01", "seed")];
      && Merge(prior, map["GPT-5" := 84.0], "vals", asOf)["GPT-5"].score == Some(84.0)
      && Merge(prior, map["GPT-5" := 95.0], "vals", asOf) == prior
  {
    var prior := map["GPT-5" := Record("GPT-5", "OpenAI", Some(85.6), "2025-11-01", "seed")];
    assert Abs(84.0 - 85.6) <= MaxDelta;
    assert !Accepts(PriorScore(prior, "GPT-5"), 95.0);
    var r := Merge(prior, map["GPT-5" := 95.0], "vals", asOf);
    assert r.Keys == prior.Keys;
  }
}
