/** The score extractor of the collector (scripts/fetch_gpqa.py: _extract_scores).
    Its input is the page's visible text, already flattened. The pattern it runs
    is: the model name, literally and ignoring letter case; up to 40 characters
    that are not digits; two digits, optionally a point and one more digit;
    a percent sign. The leftmost occurrence that fits wins. */
module Extraction {
  import opened Wrappers

  /** Longest run of non-digits allowed between the name and the number. */
  const MaxGap: nat := 40

  predicate IsDigit(c: char) {
    '0' <= c <= '9'
  }

  function DigitValue(c: char): nat
    requires IsDigit(c)
  {
    c as int - '0' as int
  }

  /** ASCII case folding: upper-case letters map to lower case, everything else to itself. */
  function FoldCase(c: char): char {
    if 'A' <= c <= 'Z' then (c as int - 'A' as int + 'a' as int) as char else c
  }

  /** `name` occurs in `text` at position `i`, ignoring ASCII letter case. */
  predicate NameAt(text: string, name: string, i: nat) {
    && i + |name| <= |text|
    && forall j :: 0 <= j < |name| ==> FoldCase(text[i + j]) == FoldCase(name[j])
  }

  /** The position of the first digit from `p` up to `last`, that is, with at
      most `last - p` non-digits before it; None when that window holds no digit. */
  function FirstDigitWithin(text: string, p: nat, last: nat): (r: Option<nat>)
    decreases last + 1 - p
    ensures r.Some? ==> && p <= r.value <= last
                        && r.value < |text|
                        && IsDigit(text[r.value])
                        && forall j :: p <= j < r.value ==> !IsDigit(text[j])
    ensures r.None? ==> forall q :: p <= q <= last && q < |text| ==> !IsDigit(text[q])
  {
    if p >= |text| || p > last then None
    else if IsDigit(text[p]) then Some(p)
    else FirstDigitWithin(text, p + 1, last)
  }

  /** The value of `dd%` or `dd.d%` starting at position `q`. */
  function NumberAt(text: string, q: nat): (r: Option<real>)
    ensures r.Some? ==> 0.0 <= r.value <= 99.9
    ensures r.Some? ==> q + 3 <= |text| && IsDigit(text[q]) && IsDigit(text[q + 1])
  {
    if q + 3 <= |text| && IsDigit(text[q]) && IsDigit(text[q + 1]) then
      var whole := (10 * DigitValue(text[q]) + DigitValue(text[q + 1])) as real;
      if q + 5 <= |text| && text[q + 2] == '.' && IsDigit(text[q + 3]) && text[q + 4] == '%' then
        Some(whole + DigitValue(text[q + 3]) as real / 10.0)
      else if text[q + 2] == '%' then
        Some(whole)
      else
        None
    else
      None
  }

  /** The pattern anchored at position `i`. Since the gap cannot hold a digit,
      the number has to start at the first digit after the name. */
  function MatchAt(text: string, name: string, i: nat): (r: Option<real>)
    ensures r.Some? ==> NameAt(text, name, i)
    ensures r.Some? ==> 0.0 <= r.value <= 99.9
  {
    if !NameAt(text, name, i) then None
    else match FirstDigitWithin(text, i + |name|, i + |name| + MaxGap)
      case None => None
      case Some(q) => NumberAt(text, q)
  }

  /** The number part of the pattern at position `q`: two digits, the fraction
      `.d` when `frac` holds, then `%`; `v` is the value written there. */
  ghost predicate NumberPattern(text: string, q: nat, frac: bool, v: real) {
    && q + (if frac then 5 else 3) <= |text|
    && IsDigit(text[q]) && IsDigit(text[q + 1])
    && var whole := (10 * DigitValue(text[q]) + DigitValue(text[q + 1])) as real;
    if frac then
      text[q + 2] == '.' && IsDigit(text[q + 3]) && text[q + 4] == '%'
      && v == whole + DigitValue(text[q + 3]) as real / 10.0
    else
      text[q + 2] == '%' && v == whole
  }

  /** The pattern, read declaratively: the name at `i`, `gap` non-digits, then
      the number part. */
  ghost predicate PatternAt(text: string, name: string, i: nat, gap: nat, frac: bool, v: real) {
    && NameAt(text, name, i)
    && gap <= MaxGap
    && NumberPattern(text, i + |name| + gap, frac, v)
    && (forall j :: i + |name| <= j < i + |name| + gap ==> !IsDigit(text[j]))
  }

  /** The number part is read the same way by NumberAt; the text decides between
      `dd%` and `dd.d%`. */
  lemma NumberAtComplete(text: string, q: nat, frac: bool, v: real)
    requires NumberPattern(text, q, frac, v)
    ensures NumberAt(text, q) == Some(v)
  {
  }

  /** Every anchored match is an instance of the pattern. */
  lemma MatchAtSound(text: string, name: string, i: nat)
    requires MatchAt(text, name, i).Some?
    ensures exists gap, frac :: PatternAt(text, name, i, gap, frac, MatchAt(text, name, i).value)
  {
    var q := FirstDigitWithin(text, i + |name|, i + |name| + MaxGap).value;
    var gap := q - (i + |name|);
    var frac := q + 5 <= |text| && text[q + 2] == '.' && IsDigit(text[q + 3]) && text[q + 4] == '%';
    assert PatternAt(text, name, i, gap, frac, MatchAt(text, name, i).value);
  }

  /** The first digit after a run of non-digits is the one the scan stops at. */
  lemma FirstDigitIsRunEnd(text: string, p: nat, q: nat, last: nat)
    requires p <= q <= last && q < |text| && IsDigit(text[q])
    requires forall j :: p <= j < q ==> !IsDigit(text[j])
    ensures FirstDigitWithin(text, p, last) == Some(q)
  {
    var found := FirstDigitWithin(text, p, last);
    assert found.Some?;
    var q' := found.value;
    assert !(q' < q) && !(q < q');
  }

  lemma MatchAtFromParts(text: string, name: string, i: nat, q: nat, v: real)
    requires NameAt(text, name, i)
    requires FirstDigitWithin(text, i + |name|, i + |name| + MaxGap) == Some(q)
    requires NumberAt(text, q) == Some(v)
    ensures MatchAt(text, name, i) == Some(v)
  {
  }

  /** Every instance of the pattern is found by the anchored match, with the same
      number: the gap and the choice of fraction are forced by the text. */
  lemma MatchAtComplete(text: string, name: string, i: nat, gap: nat, frac: bool, v: real)
    requires PatternAt(text, name, i, gap, frac, v)
    ensures MatchAt(text, name, i) == Some(v)
  {
    var p := i + |name|;
    var q := p + gap;
    assert NumberPattern(text, q, frac, v);
    assert forall j :: p <= j < q ==> !IsDigit(text[j]);
    FirstDigitIsRunEnd(text, p, q, p + MaxGap);
    NumberAtComplete(text, q, frac, v);
    MatchAtFromParts(text, name, i, q, v);
  }

  /** A position of the leftmost match and the number found there. */
  datatype Hit = Hit(pos: nat, value: real)

  /** The anchored pattern fails at every position from `lo` up to, not including, `hi`. */
  predicate NoMatchBetween(text: string, name: string, lo: nat, hi: nat) {
    forall j :: lo <= j < hi ==> MatchAt(text, name, j).None?
  }

  /** `re.search` from position `start`: the first position at which the anchored
      pattern matches. */
  function SearchFrom(text: string, name: string, start: nat): (r: Option<Hit>)
    decreases |text| + 1 - start
    ensures r.Some? ==> start <= r.value.pos <= |text|
    ensures r.Some? ==> MatchAt(text, name, r.value.pos) == Some(r.value.value)
    ensures r.Some? ==> NoMatchBetween(text, name, start, r.value.pos)
    ensures r.None? ==> NoMatchBetween(text, name, start, |text| + 1)
  {
    if start > |text| then None
    else
      var here := MatchAt(text, name, start);
      if here.Some? then Some(Hit(start, here.value))
      else
        var rest := SearchFrom(text, name, start + 1);
        NoMatchExtend(text, name, start, if rest.Some? then rest.value.pos else |text| + 1);
        rest
  }

  lemma NoMatchExtend(text: string, name: string, lo: nat, hi: nat)
    requires MatchAt(text, name, lo).None? && NoMatchBetween(text, name, lo + 1, hi)
    ensures NoMatchBetween(text, name, lo, hi)
  {
  }

  function Search(text: string, name: string): Option<Hit> {
    SearchFrom(text, name, 0)
  }

  /** The scores found for each candidate name. A name with no match is absent,
      not defaulted; each value is the number at that name's leftmost match. */
  function ExtractScores(text: string, names: seq<string>): (scores: map<string, real>)
    decreases |names|
    ensures scores.Keys <= set n | n in names
    ensures forall n :: n in names ==> (n in scores <==> Search(text, n).Some?)
    ensures forall n :: n in scores ==> scores[n] == Search(text, n).value.value
    ensures forall n :: n in scores ==> 0.0 <= scores[n] <= 99.9
  {
    if |names| == 0 then map[]
    else
      var earlier := ExtractScores(text, names[..|names| - 1]);
      var name := names[|names| - 1];
      match Search(text, name)
      case Some(hit) => earlier[name := hit.value]
      case None => earlier
  }

  /** No instance of the pattern for `name` starts before position `i`. */
  ghost predicate NoInstanceBefore(text: string, name: string, i: nat) {
    forall j: nat, gap: nat, frac: bool, v: real :: j < i ==> !PatternAt(text, name, j, gap, frac, v)
  }

  /** Positions where the anchored match fails hold no instance of the pattern. */
  lemma NoInstanceWhereNoMatch(text: string, name: string, i: nat)
    requires NoMatchBetween(text, name, 0, i)
    ensures NoInstanceBefore(text, name, i)
  {
    forall j: nat, gap: nat, frac: bool, v: real | j < i
      ensures !PatternAt(text, name, j, gap, frac, v)
    {
      if PatternAt(text, name, j, gap, frac, v) {
        MatchAtComplete(text, name, j, gap, frac, v);
      }
    }
  }

  /** A candidate that was extracted has an instance of the pattern carrying its
      score, and no instance of the pattern for it starts earlier. */
  lemma ExtractedHasPattern(text: string, names: seq<string>, n: string)
    requires n in names
    ensures n in ExtractScores(text, names) ==>
              exists i, gap, frac :: PatternAt(text, n, i, gap, frac, ExtractScores(text, names)[n])
                                     && NoInstanceBefore(text, n, i)
  {
    if n in ExtractScores(text, names) {
      var i := Search(text, n).value.pos;
      MatchAtSound(text, n, i);
      NoInstanceWhereNoMatch(text, n, i);
    }
  }

  /** A candidate for which the pattern holds anywhere is extracted, and its score
      comes from the leftmost instance: none starts earlier, and one starting at
      the same place has the same number. */
  lemma PatternIsExtracted(text: string, names: seq<string>, n: string, i: nat, gap: nat, frac: bool, v: real)
    requires n in names
    ensures PatternAt(text, n, i, gap, frac, v) ==>
              && n in ExtractScores(text, names)
              && Search(text, n).value.pos <= i
              && (Search(text, n).value.pos == i ==> ExtractScores(text, names)[n] == v)
  {
    if PatternAt(text, n, i, gap, frac, v) {
      MatchAtComplete(text, n, i, gap, frac, v);
    }
  }

  /** "100%" does not match where it stands: the third digit follows the two
      the pattern allows. */
  lemma HundredPercentRejected()
    ensures MatchAt("GPT-5: 100%", "GPT-5", 0) == None
  {
    assert FirstDigitWithin("GPT-5: 100%", 5, 45) == Some(7);
  }

  /** "12.34%" does not match either: after `.3` a `%` is required. */
  lemma TwoFractionDigitsRejected()
    ensures MatchAt("Grok 4 12.34%", "Grok 4", 0) == None
  {
    assert FirstDigitWithin("Grok 4 12.34%", 6, 46) == Some(7);
  }

  /** Names are matched ignoring case, and the number must start at the first
      digit after the name: in "GPT-5.1 ..." the name GPT-5 is followed by `.1`,
      so that occurrence fails, while GPT-5.1 itself matches. */
  lemma CaseAndFirstDigitExample()
    ensures MatchAt("gpt-5.1 88.1%", "GPT-5.1", 0) == Some(88.1)
    ensures MatchAt("gpt-5.1 88.1%", "GPT-5", 0) == None
  {
    var t := "gpt-5.1 88.1%";
    assert NameAt(t, "GPT-5.1", 0);
    assert FirstDigitWithin(t, 7, 47) == Some(8);
    assert FirstDigitWithin(t, 5, 45) == Some(6);
  }
}
