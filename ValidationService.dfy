/**
 * `ValidationService`: the cross-document checks on names, vehicle details
 * and dates.
 *
 * Library calls whose internals are out of scope are parameters:
 * `SequenceMatcher(None, a, b).ratio()` is `ratio`, a function into [0, 1];
 * `datetime.strptime(text, fmt)` is `strptime`, which gives a date or `None`
 * where it raises; `datetime.utcnow()` enters as `today`, its calendar date.
 * The parsed dates carry no time of day, so comparing a parsed date with
 * the current instant is comparing it with `today`.
 */
module ValidationService {
  import opened Basics
  import opened Text
  import opened ClaimSchema

  /** `SequenceMatcher(None, a, b).ratio()` */
  type Ratio = (string, string) -> Unit

  /** `datetime.strptime(text, fmt)`, with `None` where it raises. */
  type Strptime = (string, string) -> Option<Date>

  // ---------------------------------------------------------------------
  // _normalize_name

  /**
   * `_normalize_name`: `" ".join(name.lower().strip().split())`, and `""`
   * for an empty name. The result is lower-case, has no whitespace at
   * either end and exactly one plain space between words, and has the
   * words of the lower-cased input; it is empty exactly when the input has
   * no words.
   */
  function NormalizeName(name: string): (r: string)
    ensures IsLower(r) && SingleSpaced(r)
    ensures Split(r) == Split(Lower(name))
    ensures r == "" <==> Split(Lower(name)) == []
  {
    if name == "" then
      assert TrimStart(Lower(name)) == [];
      ""
    else
      NormalizedWords(Lower(name));
      Join(Split(Strip(Lower(name))))
  }

  /** The facts about `" ".join(low.strip().split())` that `NormalizeName` promises. */
  lemma NormalizedWords(low: string)
    requires IsLower(low)
    ensures var r := Join(Split(Strip(low)));
      && IsLower(r) && SingleSpaced(r)
      && Split(r) == Split(low)
      && (r == "" <==> Split(low) == [])
  {
    var ws := Split(low);
    SplitStrip(low);
    SplitWords(low);
    SplitLower(low);
    JoinLower(ws);
    JoinSingleSpaced(ws);
    SplitJoin(ws);
    JoinEnds(ws);
  }

  /** Normalising twice gives the same result as normalising once. */
  lemma NormalizeIdempotent(name: string)
    ensures NormalizeName(NormalizeName(name)) == NormalizeName(name)
  {
    var r := NormalizeName(name);
    if r != "" {
      var ws := Split(Strip(Lower(name)));
      SplitWords(Strip(Lower(name)));
      StripJoin(ws);
      SplitJoin(ws);
    }
  }

  // ---------------------------------------------------------------------
  // _name_similarity

  /** `_name_similarity`: 0.0 when either name is empty, else the ratio of the normalised names. */
  function NameSimilarity(ratio: Ratio, name1: string, name2: string): (r: real)
    ensures InUnit(r)
    ensures name1 == "" || name2 == "" ==> r == 0.0
  {
    if name1 == "" || name2 == "" then 0.0
    else ratio(NormalizeName(name1), NormalizeName(name2))
  }

  /** Names that differ only in case and spacing are scored as their normal forms are. */
  lemma SimilarityOfNormalized(ratio: Ratio, name1: string, name2: string)
    requires NormalizeName(name1) != "" && NormalizeName(name2) != ""
    ensures NameSimilarity(ratio, NormalizeName(name1), NormalizeName(name2)) == NameSimilarity(ratio, name1, name2)
  {
    NormalizeIdempotent(name1);
    NormalizeIdempotent(name2);
  }

  /**
   * Names made only of whitespace are truthy, so they reach the ratio, but
   * their normal forms are empty and score 0.0: this is where scoring a name
   * and scoring its normal form part.
   */
  lemma BlankNames(ratio: Ratio, name1: string, name2: string)
    requires name1 != "" && name2 != ""
    requires NormalizeName(name1) == "" && NormalizeName(name2) == ""
    ensures NameSimilarity(ratio, name1, name2) == ratio("", "")
    ensures NameSimilarity(ratio, NormalizeName(name1), NormalizeName(name2)) == 0.0
  {
  }

  /** A run of spaces is such a name. */
  lemma SpacesAreBlank()
    ensures NormalizeName("  ") == "" && NormalizeName(" ") == ""
  {
    assert Lower("  ") == "  " && Lower(" ") == " ";
    assert Split("  ") == [] && Split(" ") == [];
  }

  // ---------------------------------------------------------------------
  // _parse_date

  /** The formats `_parse_date` tries, in order. */
  const DateFormats: seq<string> := ["%Y-%m-%d", "%d-%m-%Y", "%d/%m/%Y", "%Y/%m/%d", "%d-%m-%y", "%d/%m/%y"]

  /** The result of the first format in `formats` that parses `text`, or `None`. */
  function FirstParse(strptime: Strptime, text: string, formats: seq<string>): Option<Date> {
    if formats == [] then None
    else if strptime(text, formats[0]).Some? then strptime(text, formats[0])
    else FirstParse(strptime, text, formats[1..])
  }

  /** What `_parse_date(s)` returns. */
  function ParsedDate(strptime: Strptime, s: string): Option<Date> {
    if s == "" then None else FirstParse(strptime, Strip(s), DateFormats)
  }

  /** `FirstParse` returns the result of the first format that succeeds, and `None` when none does. */
  lemma {:induction false} FirstParseIsFirst(strptime: Strptime, text: string, formats: seq<string>)
    ensures FirstParse(strptime, text, formats).None? <==>
              forall k :: 0 <= k < |formats| ==> strptime(text, formats[k]).None?
    ensures FirstParse(strptime, text, formats).Some? ==>
              exists k :: 0 <= k < |formats| && strptime(text, formats[k]) == FirstParse(strptime, text, formats)
                && forall j :: 0 <= j < k ==> strptime(text, formats[j]).None?
  {
    if formats != [] && strptime(text, formats[0]).None? {
      var rest := formats[1..];
      FirstParseIsFirst(strptime, text, rest);
      if FirstParse(strptime, text, rest).Some? {
        var k :| 0 <= k < |rest| && strptime(text, rest[k]) == FirstParse(strptime, text, rest)
                 && forall j :: 0 <= j < k ==> strptime(text, rest[j]).None?;
        assert formats[k + 1] == rest[k];
        assert forall j :: 0 <= j < k + 1 ==> strptime(text, formats[j]).None? by {
          forall j | 0 <= j < k + 1 ensures strptime(text, formats[j]).None? {
            if j > 0 {
              assert formats[j] == rest[j - 1];
            }
          }
        }
      } else {
        forall k | 0 <= k < |formats| ensures strptime(text, formats[k]).None? {
          if k > 0 {
            assert formats[k] == rest[k - 1];
          }
        }
      }
    }
  }

  /**
   * `_parse_date`: `None` for an empty string; otherwise the stripped text
   * is tried against `DateFormats` in order and the first success is
   * returned, or `None` when every format fails.
   */
  method ParseDate(strptime: Strptime, s: string) returns (d: Option<Date>)
    ensures d == ParsedDate(strptime, s)
    ensures s == "" ==> d.None?
    ensures s != "" && d.None? ==> forall k :: 0 <= k < |DateFormats| ==> strptime(Strip(s), DateFormats[k]).None?
    ensures d.Some? ==> exists k :: 0 <= k < |DateFormats| && strptime(Strip(s), DateFormats[k]) == d
                          && forall j :: 0 <= j < k ==> strptime(Strip(s), DateFormats[j]).None?
  {
    if s == "" {
      return None;
    }
    FirstParseIsFirst(strptime, Strip(s), DateFormats);
    var i := 0;
    while i < |DateFormats|
      invariant 0 <= i <= |DateFormats|
      invariant FirstParse(strptime, Strip(s), DateFormats[i..]) == ParsedDate(strptime, s)
    {
      var parsed := strptime(Strip(s), DateFormats[i]);
      if parsed.Some? {
        return parsed;
      }
      assert DateFormats[i..][1..] == DateFormats[i + 1..];
      i := i + 1;
    }
    return None;
  }

  // ---------------------------------------------------------------------
  // validate_names

  /**
   * The names that take part, in order: the policy, claim-form and KYC
   * names that are present and non-empty. The licence name never does.
   */
  function PresentNames(policyName: Option<string>, claimFormName: Option<string>, kycName: Option<string>): (ns: seq<NamedDoc>)
    ensures |ns| <= 3
    ensures forall i :: 0 <= i < |ns| ==> ns[i].name != ""
  {
    (if Present(policyName) then [NamedDoc(PolicySource, policyName.value)] else [])
    + (if Present(claimFormName) then [NamedDoc(ClaimFormSource, claimFormName.value)] else [])
    + (if Present(kycName) then [NamedDoc(KycSource, kycName.value)] else [])
  }

  /** The pairs `(i, i+1), ..., (i, j-1)`: the inner loop of the pair scan up to `j`. */
  function Row(i: nat, j: nat): (ps: seq<(nat, nat)>)
    ensures |ps| == if j <= i + 1 then 0 else j - i - 1
    decreases j
  {
    if j <= i + 1 then [] else Row(i, j - 1) + [(i, j - 1)]
  }

  lemma {:induction false} RowElements(i: nat, j: nat)
    ensures forall k :: 0 <= k < |Row(i, j)| ==> Row(i, j)[k] == (i, i + 1 + k)
    decreases j
  {
    if j > i + 1 {
      RowElements(i, j - 1);
    }
  }

  /** The pairs the scan over `n` names visits before row `i`. */
  function PairsBefore(i: nat, n: nat): seq<(nat, nat)> {
    if i == 0 then [] else PairsBefore(i - 1, n) + Row(i - 1, n)
  }

  /** Every pair `(a, b)` of indices with `a < b < n`, in the order the nested loops visit them. */
  function AllPairs(n: nat): (ps: seq<(nat, nat)>)
    ensures PairsIn(ps, n)
  {
    PairsBeforeIn(n, n);
    PairsBefore(n, n)
  }

  predicate PairsIn(ps: seq<(nat, nat)>, n: nat) {
    forall k :: 0 <= k < |ps| ==> ps[k].0 < ps[k].1 < n
  }

  lemma {:induction false} PairsBeforeIn(i: nat, n: nat)
    requires i <= n
    ensures PairsIn(PairsBefore(i, n), n)
  {
    if i > 0 {
      PairsBeforeIn(i - 1, n);
      RowElements(i - 1, n);
    }
  }

  /** The scan visits exactly the pairs of indices `a < b < n`. */
  lemma {:induction false} PairsBeforeExact(i: nat, n: nat, a: nat, b: nat)
    requires i <= n
    ensures (a, b) in PairsBefore(i, n) <==> a < i && a < b < n
  {
    if i > 0 {
      PairsBeforeExact(i - 1, n, a, b);
      InRow(i - 1, n, a, b);
      var prev, row := PairsBefore(i - 1, n), Row(i - 1, n);
      assert PairsBefore(i, n) == prev + row;
      assert (a, b) in prev + row <==> (a, b) in prev || (a, b) in row;
    } else {
      assert PairsBefore(i, n) == [];
    }
  }

  /** The pairs of row `i` are exactly `(i, b)` for `i < b < n`. */
  lemma InRow(i: nat, n: nat, a: nat, b: nat)
    ensures (a, b) in Row(i, n) <==> a == i && i < b < n
  {
    var row := Row(i, n);
    RowElements(i, n);
    if a == i && i < b < n {
      assert row[b - i - 1] == (a, b);
    }
  }

  /** The scan visits `i * (2n - i - 1) / 2` pairs before row `i`; `n * (n - 1) / 2` in all. */
  lemma {:induction false} PairsBeforeCount(i: nat, n: nat)
    requires i <= n
    ensures |PairsBefore(i, n)| * 2 == i * (2 * n - i - 1)
  {
    if i > 0 {
      PairsBeforeCount(i - 1, n);
      var m := |PairsBefore(i - 1, n)|;
      assert |PairsBefore(i, n)| == m + (n - i);
      var k := 2 * n - i;
      assert (i - 1) * k == i * k - k;
      assert i * k - i == i * (k - 1);
    }
  }

  /** `AllPairs(n)` holds every pair `a < b < n` and nothing else. */
  lemma AllPairsExact(n: nat, a: nat, b: nat)
    ensures (a, b) in AllPairs(n) <==> a < b < n
    ensures |AllPairs(n)| * 2 == n * (n - 1)
  {
    PairsBeforeExact(n, n, a, b);
    PairsBeforeCount(n, n);
  }

  /** A similarity score on names; `validate_names` uses `Similarity(ratio)`. */
  type Score = (string, string) -> Unit

  /** `_name_similarity` as a score. */
  function Similarity(ratio: Ratio): Score {
    (name1: string, name2: string) => NameSimilarity(ratio, name1, name2)
  }

  /** The similarity of the pair `p` of entries of `ns`. */
  function Sim(score: Score, ns: seq<NamedDoc>, p: (nat, nat)): real
    requires p.0 < |ns| && p.1 < |ns|
  {
    score(ns[p.0].name, ns[p.1].name)
  }

  /** `similarities` after the pairs `ps`. */
  function Sims(score: Score, ns: seq<NamedDoc>, ps: seq<(nat, nat)>): (r: seq<real>)
    requires PairsIn(ps, |ns|)
    ensures |r| == |ps|
  {
    if ps == [] then []
    else Sims(score, ns, ps[..|ps| - 1]) + [Sim(score, ns, ps[|ps| - 1])]
  }

  /** `similarities` holds the score of each pair, in the order of the pairs. */
  lemma {:induction false} SimsElements(score: Score, ns: seq<NamedDoc>, ps: seq<(nat, nat)>)
    requires PairsIn(ps, |ns|)
    ensures forall k :: 0 <= k < |ps| ==> Sims(score, ns, ps)[k] == Sim(score, ns, ps[k])
    ensures AllInUnit(Sims(score, ns, ps))
  {
    if ps != [] {
      SimsElements(score, ns, ps[..|ps| - 1]);
    }
  }

  /** `matched_names` after the pairs `ps`, before de-duplication. */
  function Matched(score: Score, ns: seq<NamedDoc>, ps: seq<(nat, nat)>): seq<NamedDoc>
    requires PairsIn(ps, |ns|)
  {
    if ps == [] then []
    else
      var p := ps[|ps| - 1];
      Matched(score, ns, ps[..|ps| - 1]) + (if Sim(score, ns, p) >= 0.85 then [ns[p.0], ns[p.1]] else [])
  }

  /** `mismatches` after the pairs `ps`. */
  function Mismatches(score: Score, ns: seq<NamedDoc>, ps: seq<(nat, nat)>): seq<NameMismatch>
    requires PairsIn(ps, |ns|)
  {
    if ps == [] then []
    else
      var p := ps[|ps| - 1];
      var s := Sim(score, ns, p);
      Mismatches(score, ns, ps[..|ps| - 1]) + (if s < 0.7 then [NameMismatch(ns[p.0], ns[p.1], s)] else [])
  }

  /** The `NameValidationResult` for the participating names `ns`, scored by `score`. */
  function NameVerdict(score: Score, ns: seq<NamedDoc>): NameResult {
    if |ns| < 2 then
      NameResult(isValid := false, confidence := 0.0, matchedNames := [], message := InsufficientNames)
    else
      var ps := AllPairs(|ns|);
      var avg := Mean(Sims(score, ns, ps));
      var mm := Mismatches(score, ns, ps);
      var valid := avg >= 0.8 && |mm| == 0;
      NameResult(
        isValid := valid,
        confidence := avg,
        matchedNames := Dedup(Matched(score, ns, ps)),
        mismatches := if mm == [] then None else Some(mm),
        message := if valid then AllNamesMatch else NameMismatchesFound(|mm|))
  }

  /** One more pair extends each accumulator by that pair's contribution. */
  lemma ClassificationStep(score: Score, ns: seq<NamedDoc>, done: seq<(nat, nat)>, p: (nat, nat))
    requires PairsIn(done, |ns|) && p.0 < p.1 < |ns|
    ensures PairsIn(done + [p], |ns|)
    ensures Sims(score, ns, done + [p]) == Sims(score, ns, done) + [Sim(score, ns, p)]
    ensures Matched(score, ns, done + [p])
            == Matched(score, ns, done) + (if Sim(score, ns, p) >= 0.85 then [ns[p.0], ns[p.1]] else [])
    ensures Mismatches(score, ns, done + [p])
            == Mismatches(score, ns, done) + (if Sim(score, ns, p) < 0.7 then [NameMismatch(ns[p.0], ns[p.1], Sim(score, ns, p))] else [])
  {
    assert (done + [p])[..|done|] == done;
  }

  /** A pair at or above 0.85 puts both of its entries among the matched names; no other pair adds any. */
  lemma {:induction false} MatchedMeaning(score: Score, ns: seq<NamedDoc>, ps: seq<(nat, nat)>, x: NamedDoc)
    requires PairsIn(ps, |ns|)
    ensures x in Matched(score, ns, ps) <==>
              exists k :: 0 <= k < |ps| && Sim(score, ns, ps[k]) >= 0.85 && (x == ns[ps[k].0] || x == ns[ps[k].1])
  {
    if ps != [] {
      var init := ps[..|ps| - 1];
      MatchedMeaning(score, ns, init, x);
      assert forall k :: 0 <= k < |init| ==> init[k] == ps[k];
    }
  }

  /**
   * Each pair below 0.70 adds exactly one mismatch, naming the pair and its
   * score, and no other pair adds any.
   */
  lemma MismatchesMeaning(score: Score, ns: seq<NamedDoc>, ps: seq<(nat, nat)>)
    requires PairsIn(ps, |ns|)
    ensures forall m :: m in Mismatches(score, ns, ps) <==> exists k :: MismatchFor(score, ns, ps, k, m)
    ensures Mismatches(score, ns, ps) == [] <==> forall k :: 0 <= k < |ps| ==> Sim(score, ns, ps[k]) >= 0.7
    ensures |Mismatches(score, ns, ps)| <= |ps|
  {
    MismatchesMembers(score, ns, ps);
    MismatchesCount(score, ns, ps);
  }

  lemma {:induction false} MismatchesCount(score: Score, ns: seq<NamedDoc>, ps: seq<(nat, nat)>)
    requires PairsIn(ps, |ns|)
    ensures Mismatches(score, ns, ps) == [] <==> forall k :: 0 <= k < |ps| ==> Sim(score, ns, ps[k]) >= 0.7
    ensures |Mismatches(score, ns, ps)| <= |ps|
  {
    if ps != [] {
      var init, p := ps[..|ps| - 1], ps[|ps| - 1];
      MismatchesCount(score, ns, init);
      assert forall k :: 0 <= k < |init| ==> init[k] == ps[k];
      var sp := Sim(score, ns, p);
      assert Mismatches(score, ns, ps)
        == Mismatches(score, ns, init) + if sp < 0.7 then [NameMismatch(ns[p.0], ns[p.1], sp)] else [];
    }
  }

  /** Pair `k` of `ps` scores below 0.7 and `m` is the mismatch recorded for it. */
  predicate MismatchFor(score: Score, ns: seq<NamedDoc>, ps: seq<(nat, nat)>, k: int, m: NameMismatch)
    requires PairsIn(ps, |ns|)
  {
    0 <= k < |ps| && Sim(score, ns, ps[k]) < 0.7
    && m == NameMismatch(ns[ps[k].0], ns[ps[k].1], Sim(score, ns, ps[k]))
  }

  lemma {:induction false} MismatchesMembers(score: Score, ns: seq<NamedDoc>, ps: seq<(nat, nat)>)
    requires PairsIn(ps, |ns|)
    ensures forall m :: m in Mismatches(score, ns, ps) <==> exists k :: MismatchFor(score, ns, ps, k, m)
  {
    if ps != [] {
      var init, p := ps[..|ps| - 1], ps[|ps| - 1];
      MismatchesMembers(score, ns, init);
      var sp := Sim(score, ns, p);
      var last := if sp < 0.7 then [NameMismatch(ns[p.0], ns[p.1], sp)] else [];
      assert Mismatches(score, ns, ps) == Mismatches(score, ns, init) + last;
      forall m | m in Mismatches(score, ns, ps) ensures exists k :: MismatchFor(score, ns, ps, k, m) {
        if m in Mismatches(score, ns, init) {
          var k :| MismatchFor(score, ns, init, k, m);
          assert ps[k] == init[k];
          assert MismatchFor(score, ns, ps, k, m);
        } else {
          assert MismatchFor(score, ns, ps, |ps| - 1, m);
        }
      }
      forall m | exists k :: MismatchFor(score, ns, ps, k, m) ensures m in Mismatches(score, ns, ps) {
        var k :| MismatchFor(score, ns, ps, k, m);
        if k < |init| {
          assert ps[k] == init[k];
          assert MismatchFor(score, ns, init, k, m);
        } else {
          assert m in last;
        }
      }
    }
  }


  /** The contributions of two runs of pairs are concatenated: each pair is classified on its own. */
  lemma {:induction false} ClassificationAppend(score: Score, ns: seq<NamedDoc>, ps: seq<(nat, nat)>, qs: seq<(nat, nat)>)
    requires PairsIn(ps, |ns|) && PairsIn(qs, |ns|)
    ensures PairsIn(ps + qs, |ns|)
    ensures Matched(score, ns, ps + qs) == Matched(score, ns, ps) + Matched(score, ns, qs)
    ensures Mismatches(score, ns, ps + qs) == Mismatches(score, ns, ps) + Mismatches(score, ns, qs)
    ensures Sims(score, ns, ps + qs) == Sims(score, ns, ps) + Sims(score, ns, qs)
    decreases |qs|
  {
    if qs != [] {
      var init := qs[..|qs| - 1];
      assert (ps + qs)[..|ps + qs| - 1] == ps + init;
      assert (ps + qs)[|ps + qs| - 1] == qs[|qs| - 1];
      ClassificationAppend(score, ns, ps, init);
      assert PairsIn(ps + qs, |ns|) by {
        forall k | 0 <= k < |ps + qs| ensures (ps + qs)[k].0 < (ps + qs)[k].1 < |ns| {
          if k >= |ps| { assert (ps + qs)[k] == qs[k - |ps|]; }
        }
      }
    } else {
      assert ps + qs == ps;
    }
  }

  /**
   * The verdict on names: with fewer than two names it is invalid with
   * confidence 0.0 and no entries; otherwise the confidence is the mean
   * similarity over all pairs, the result is valid exactly when that mean
   * is at least 0.80 and no pair scored below 0.70, and `mismatches` is
   * `None` exactly when there are none.
   */
  lemma NameVerdictMeaning(score: Score, ns: seq<NamedDoc>)
    ensures NameVerdict(score, ns).Valid()
    ensures |ns| < 2 ==> NameVerdict(score, ns) == NameResult(false, 0.0, [], None, InsufficientNames)
    ensures |ns| >= 2 ==>
      var ps := AllPairs(|ns|);
      var r := NameVerdict(score, ns);
      && r.confidence == Mean(Sims(score, ns, ps))
      && (r.isValid <==> r.confidence >= 0.8 && forall k :: 0 <= k < |ps| ==> Sim(score, ns, ps[k]) >= 0.7)
      && (r.mismatches.None? <==> forall k :: 0 <= k < |ps| ==> Sim(score, ns, ps[k]) >= 0.7)
      && (r.mismatches.Some? ==> r.mismatches.value != [])
      && NoDuplicates(r.matchedNames)
      && (forall x :: x in r.matchedNames <==> x in Matched(score, ns, ps))
  {
    if |ns| >= 2 {
      var ps := AllPairs(|ns|);
      var sims := Sims(score, ns, ps);
      SimsElements(score, ns, ps);
      MeanInUnit(sims);
      MismatchesMeaning(score, ns, ps);
    }
  }

  /** With two names there is one pair and with three there are three. */
  lemma PairCounts()
    ensures AllPairs(2) == [(0, 1)]
    ensures AllPairs(3) == [(0, 1), (0, 2), (1, 2)]
  {
    assert Row(0, 2) == [(0, 1)];
    assert Row(1, 2) == [];
    assert Row(0, 3) == [(0, 1), (0, 2)];
    assert Row(1, 3) == [(1, 2)];
    assert Row(2, 3) == [];
  }

  /**
   * The nested loops of `validate_names`: every pair `i < j` of `names` is
   * scored once, in order, and sorted into matched names (at or above 0.85)
   * and mismatches (below 0.70).
   */
  method ScorePairs(score: Score, names: seq<NamedDoc>)
      returns (similarities: seq<real>, matchedNames: seq<NamedDoc>, mismatches: seq<NameMismatch>)
    ensures PairsIn(AllPairs(|names|), |names|)
    ensures similarities == Sims(score, names, AllPairs(|names|))
    ensures matchedNames == Matched(score, names, AllPairs(|names|))
    ensures mismatches == Mismatches(score, names, AllPairs(|names|))
  {
    var n := |names|;
    similarities, matchedNames, mismatches := [], [], [];
    ghost var done: seq<(nat, nat)> := [];
    var i := 0;
    while i < n
      invariant 0 <= i <= n
      invariant done == PairsBefore(i, n)
      invariant PairsIn(done, n)
      invariant similarities == Sims(score, names, done)
      invariant matchedNames == Matched(score, names, done)
      invariant mismatches == Mismatches(score, names, done)
    {
      similarities, matchedNames, mismatches := ScoreRow(score, names, i, similarities, matchedNames, mismatches);
      ClassificationAppend(score, names, done, Row(i, n));
      done := done + Row(i, n);
      i := i + 1;
    }
  }

  /**
   * The inner loop of the pair scan: name `i` against every later name,
   * appending each pair's contribution to the accumulators.
   */
  method ScoreRow(score: Score, names: seq<NamedDoc>, i: nat,
                  similarities: seq<real>, matchedNames: seq<NamedDoc>, mismatches: seq<NameMismatch>)
      returns (similarities': seq<real>, matchedNames': seq<NamedDoc>, mismatches': seq<NameMismatch>)
    requires i < |names|
    ensures PairsIn(Row(i, |names|), |names|)
    ensures similarities' == similarities + Sims(score, names, Row(i, |names|))
    ensures matchedNames' == matchedNames + Matched(score, names, Row(i, |names|))
    ensures mismatches' == mismatches + Mismatches(score, names, Row(i, |names|))
  {
    var n := |names|;
    similarities', matchedNames', mismatches' := similarities, matchedNames, mismatches;
    var j := i + 1;
    assert Row(i, j) == [];
    assert similarities' == similarities + [] && matchedNames' == matchedNames + [] && mismatches' == mismatches + [];
    while j < n
      invariant i + 1 <= j <= n
      invariant PairsIn(Row(i, j), n)
      invariant similarities' == similarities + Sims(score, names, Row(i, j))
      invariant matchedNames' == matchedNames + Matched(score, names, Row(i, j))
      invariant mismatches' == mismatches + Mismatches(score, names, Row(i, j))
    {
      similarities', matchedNames', mismatches' :=
        ScorePair(score, names, i, j, similarities, matchedNames, mismatches, similarities', matchedNames', mismatches');
      j := j + 1;
    }
  }

  /**
   * One step of the inner loop: score the pair `(i, j)` and sort it into the
   * accumulators, which then hold what was there before row `i` followed by
   * the contributions of the row up to and including `(i, j)`.
   */
  method ScorePair(score: Score, names: seq<NamedDoc>, i: nat, j: nat,
                   ghost sims0: seq<real>, ghost matched0: seq<NamedDoc>, ghost mismatches0: seq<NameMismatch>,
                   similarities: seq<real>, matchedNames: seq<NamedDoc>, mismatches: seq<NameMismatch>)
      returns (similarities': seq<real>, matchedNames': seq<NamedDoc>, mismatches': seq<NameMismatch>)
    requires i < j < |names| && PairsIn(Row(i, j), |names|)
    requires similarities == sims0 + Sims(score, names, Row(i, j))
    requires matchedNames == matched0 + Matched(score, names, Row(i, j))
    requires mismatches == mismatches0 + Mismatches(score, names, Row(i, j))
    ensures PairsIn(Row(i, j + 1), |names|)
    ensures similarities' == sims0 + Sims(score, names, Row(i, j + 1))
    ensures matchedNames' == matched0 + Matched(score, names, Row(i, j + 1))
    ensures mismatches' == mismatches0 + Mismatches(score, names, Row(i, j + 1))
  {
    RowClassification(score, names, i, j);
    AppendAssociative3(sims0, Sims(score, names, Row(i, j)), Sims(score, names, [(i, j)]));
    AppendAssociative3(matched0, Matched(score, names, Row(i, j)), Matched(score, names, [(i, j)]));
    AppendAssociative3(mismatches0, Mismatches(score, names, Row(i, j)), Mismatches(score, names, [(i, j)]));
    var similarity := score(names[i].name, names[j].name);
    assert Sims(score, names, [(i, j)]) == [similarity];
    similarities' := similarities + [similarity];
    matchedNames', mismatches' := matchedNames, mismatches;
    if similarity >= 0.85 {
      matchedNames' := matchedNames + [names[i], names[j]];
    } else if similarity < 0.7 {
      mismatches' := mismatches + [NameMismatch(names[i], names[j], similarity)];
    }
  }

  /** Row `i` up to `j + 1` classifies as row `i` up to `j`, then the pair `(i, j)`. */
  lemma RowClassification(score: Score, ns: seq<NamedDoc>, i: nat, j: nat)
    requires i < j < |ns| && PairsIn(Row(i, j), |ns|)
    ensures Row(i, j + 1) == Row(i, j) + [(i, j)] && PairsIn(Row(i, j + 1), |ns|)
    ensures Sims(score, ns, Row(i, j + 1)) == Sims(score, ns, Row(i, j)) + Sims(score, ns, [(i, j)])
    ensures Matched(score, ns, Row(i, j + 1)) == Matched(score, ns, Row(i, j)) + Matched(score, ns, [(i, j)])
    ensures Mismatches(score, ns, Row(i, j + 1)) == Mismatches(score, ns, Row(i, j)) + Mismatches(score, ns, [(i, j)])
  {
    ClassificationAppend(score, ns, Row(i, j), [(i, j)]);
  }

  /** The verdict on two or more names, from the accumulators of the pair scan. */
  lemma NameVerdictOfScan(score: Score, ns: seq<NamedDoc>, similarities: seq<real>,
                          matchedNames: seq<NamedDoc>, mismatches: seq<NameMismatch>)
    requires |ns| >= 2 && PairsIn(AllPairs(|ns|), |ns|)
    requires similarities == Sims(score, ns, AllPairs(|ns|))
    requires matchedNames == Matched(score, ns, AllPairs(|ns|))
    requires mismatches == Mismatches(score, ns, AllPairs(|ns|))
    ensures
      var avg := if |similarities| > 0 then Sum(similarities) / (|similarities| as real) else 0.0;
      var valid := avg >= 0.8 && |mismatches| == 0;
      NameVerdict(score, ns) == NameResult(
        isValid := valid,
        confidence := avg,
        matchedNames := Dedup(matchedNames),
        mismatches := if |mismatches| > 0 then Some(mismatches) else None,
        message := if valid then AllNamesMatch else NameMismatchesFound(|mismatches|))
  {
  }

  /** `validate_names`; the licence name is accepted and never used. */
  method ValidateNames(ratio: Ratio, policyName: Option<string>, claimFormName: Option<string>,
                       licenseName: Option<string>, kycName: Option<string>) returns (r: NameResult)
    ensures r == NameVerdict(Similarity(ratio), PresentNames(policyName, claimFormName, kycName))
  {
    var names := PresentNames(policyName, claimFormName, kycName);
    if |names| < 2 {
      r := NameResult(isValid := false, confidence := 0.0, matchedNames := [], message := InsufficientNames);
      return;
    }

    var similarities, matchedNames, mismatches := ScorePairs(Similarity(ratio), names);
    NameVerdictOfScan(Similarity(ratio), names, similarities, matchedNames, mismatches);
    var avgSimilarity := if |similarities| > 0 then Sum(similarities) / (|similarities| as real) else 0.0;
    var isValid := avgSimilarity >= 0.8 && |mismatches| == 0;
    r := NameResult(
      isValid := isValid,
      confidence := avgSimilarity,
      matchedNames := Dedup(matchedNames),
      mismatches := if |mismatches| > 0 then Some(mismatches) else None,
      message := if isValid then AllNamesMatch else NameMismatchesFound(|mismatches|));
  }

  // ---------------------------------------------------------------------
  // validate_vehicle

  /** `registration.replace(" ", "").upper()` */
  function RegistrationKey(registration: string): (r: string)
    ensures ' ' !in r && IsUpper(r)
    ensures |r| == |registration| - multiset(registration)[' ']
  {
    RemoveSpacesLength(registration);
    Upper(RemoveSpaces(registration))
  }

  /** Keying a key changes nothing. */
  lemma RegistrationKeyIdempotent(registration: string)
    ensures RegistrationKey(RegistrationKey(registration)) == RegistrationKey(registration)
  {
    RemoveSpacesOfSpaceless(RegistrationKey(registration));
  }

  /** Plain spaces anywhere in a registration do not change its key. */
  lemma RegistrationKeyIgnoresSpaces(a: string, b: string)
    ensures RegistrationKey(a + " " + b) == RegistrationKey(a + b)
  {
    RemoveSpacesDropsSpace(a, b);
  }

  lemma {:induction false} RemoveSpacesOfSpaceless(s: string)
    requires ' ' !in s
    ensures RemoveSpaces(s) == s
  {
    if s != [] {
      assert s[0] != ' ';
      RemoveSpacesOfSpaceless(s[1..]);
    }
  }

  /** The checks `validate_vehicle` records, in order: registration (when run) and make/model (when present). */
  function VehicleChecks(registrationRan: bool, registrationOk: bool, makeModel: bool): seq<bool> {
    (if registrationRan then [registrationOk] else []) + (if makeModel then [true] else [])
  }

  /**
   * Without a mismatch every recorded check passed, so the confidence is
   * 1.0 when a check ran and 0.0 otherwise; with one it is below 1.0.
   */
  lemma VehicleChecksVerdict(registrationRan: bool, registrationOk: bool, makeModel: bool)
    ensures var f := TrueFraction(VehicleChecks(registrationRan, registrationOk, makeModel));
      && (registrationRan && !registrationOk ==> f < 1.0)
      && (!registrationRan || registrationOk ==> f == if registrationRan || makeModel then 1.0 else 0.0)
  {
    var checks := VehicleChecks(registrationRan, registrationOk, makeModel);
    TrueFractionOne(checks);
    if registrationRan && !registrationOk {
      assert !checks[0];
    }
  }

  /**
   * What `validate_vehicle` returns for the two records: the relation its
   * result keeps with them (stated once, used by the method and by the
   * orchestration that calls it).
   */
  ghost predicate VehicleVerdict(policy: Option<PolicyData>, claimForm: Option<ClaimFormData>, r: VehicleResult) {
    && (policy.None? || claimForm.None? ==>
          r == VehicleResult(isValid := false, confidence := 0.0, message := MissingVehicleData))
    && (policy.Some? && claimForm.Some? ==>
        var p, c := policy.value, claimForm.value;
        var regRan := Present(p.vehicleRegistration) && Present(c.vehicleRegistration);
        var regOk := regRan && RegistrationKey(p.vehicleRegistration.value) == RegistrationKey(c.vehicleRegistration.value);
        var makeModel := Present(p.make) && Present(p.model);
        && r.registrationMatch == (if regRan then Some(regOk) else None)
        && r.makeModelMatch == (if makeModel then Some(true) else None)
        && r.chassisMatch.None? && r.engineMatch.None?
        && r.mismatches == (if regRan && !regOk
                            then Some([RegistrationMismatch(RegistrationKey(p.vehicleRegistration.value),
                                                            RegistrationKey(c.vehicleRegistration.value))])
                            else None)
        && r.confidence == TrueFraction(VehicleChecks(regRan, regOk, makeModel))
        && r.isValid == (r.mismatches.None? && r.confidence >= 0.8)
        && (r.isValid <==> r.mismatches.None? && (regRan || makeModel))
        && (r.isValid <==> r.confidence == 1.0)
        && r.message == (if r.isValid then VehicleMatches else VehicleMismatchesFound(if r.mismatches.Some? then 1 else 0)))
  }

  /**
   * `validate_vehicle`. Without both records the result is invalid with
   * confidence 0.0 and every flag `None`. Otherwise the registrations are
   * compared as keys when both are present, a differing pair is the only
   * possible mismatch, make and model are only checked for presence on the
   * policy, chassis and engine are never checked, the confidence is the
   * fraction of passed checks and the result is valid exactly when nothing
   * mismatched and at least one check ran.
   */
  method ValidateVehicle(policy: Option<PolicyData>, claimForm: Option<ClaimFormData>) returns (r: VehicleResult)
    ensures r.Valid()
    ensures VehicleVerdict(policy, claimForm, r)
  {
    if policy.None? || claimForm.None? {
      return VehicleResult(isValid := false, confidence := 0.0, message := MissingVehicleData);
    }
    var p, c := policy.value, claimForm.value;
    var mismatches: seq<VehicleMismatch> := [];
    var checks: seq<bool> := [];

    var regMatch := false;
    if Present(p.vehicleRegistration) && Present(c.vehicleRegistration) {
      var regPolicy := RegistrationKey(p.vehicleRegistration.value);
      var regClaim := RegistrationKey(c.vehicleRegistration.value);
      regMatch := regPolicy == regClaim;
      checks := checks + [regMatch];
      if !regMatch {
        mismatches := mismatches + [RegistrationMismatch(regPolicy, regClaim)];
      }
    }

    ghost var regRan := Present(p.vehicleRegistration) && Present(c.vehicleRegistration);
    assert checks == if regRan then [regMatch] else [];
    assert regRan && !regMatch ==> mismatches == [RegistrationMismatch(RegistrationKey(p.vehicleRegistration.value),
                                                                     RegistrationKey(c.vehicleRegistration.value))];
    assert !(regRan && !regMatch) ==> mismatches == [];

    var makeModelMatch: Option<bool> := None;
    if Present(p.make) && Present(p.model) {
      makeModelMatch := Some(true);
      checks := checks + [true];
    }
    assert checks == VehicleChecks(regRan, regMatch, Present(p.make) && Present(p.model));

    VehicleChecksVerdict(Present(p.vehicleRegistration) && Present(c.vehicleRegistration), regMatch,
                         Present(p.make) && Present(p.model));
    var confidence := TrueFraction(checks);
    var isValid := |mismatches| == 0 && confidence >= 0.8;
    r := VehicleResult(
      isValid := isValid,
      confidence := confidence,
      registrationMatch := if Present(p.vehicleRegistration) && Present(c.vehicleRegistration) then Some(regMatch) else None,
      chassisMatch := None,
      engineMatch := None,
      makeModelMatch := makeModelMatch,
      mismatches := if |mismatches| > 0 then Some(mismatches) else None,
      message := if isValid then VehicleMatches else VehicleMismatchesFound(|mismatches|));
  }

  // ---------------------------------------------------------------------
  // validate_dates

  /** The five dates `validate_dates` parses; `None` where the record, the field or the parse is missing. */
  datatype ParsedDates = ParsedDates(
    policyStart: Option<Date>,
    policyExpiry: Option<Date>,
    accident: Option<Date>,
    submission: Option<Date>,
    licenseExpiry: Option<Date>)

  /** `_parse_date(field) if field else None` */
  function DateField(strptime: Strptime, field: Option<string>): Option<Date> {
    if Present(field) then ParsedDate(strptime, field.value) else None
  }

  function ParseAll(strptime: Strptime, policy: Option<PolicyData>, claimForm: Option<ClaimFormData>,
                    license: Option<LicenseData>): ParsedDates {
    ParsedDates(
      if policy.Some? then DateField(strptime, policy.value.policyStartDate) else None,
      if policy.Some? then DateField(strptime, policy.value.policyExpiryDate) else None,
      if claimForm.Some? then DateField(strptime, claimForm.value.accidentDate) else None,
      if claimForm.Some? then DateField(strptime, claimForm.value.claimSubmissionDate) else None,
      if license.Some? then DateField(strptime, license.value.expiryDate) else None)
  }

  predicate IsMissingMessage(m: DateMismatch) {
    m.PolicyStartMissing? || m.PolicyExpiryMissing? || m.AccidentDateMissing?
    || m.SubmissionDateMissing? || m.LicenseExpiryMissing?
  }

  /** The "missing" messages: one per empty date field of a present record, in source order. */
  function MissingDates(policy: Option<PolicyData>, claimForm: Option<ClaimFormData>, license: Option<LicenseData>): seq<DateMismatch> {
    MissingPolicyDates(policy) + MissingClaimDates(claimForm) + MissingLicenseDates(license)
  }

  /** `[m]` when `missing`, else nothing. */
  function Flag(missing: bool, m: DateMismatch): seq<DateMismatch> {
    if missing then [m] else []
  }

  function MissingPolicyDates(policy: Option<PolicyData>): seq<DateMismatch> {
    if policy.None? then []
    else Flag(!Present(policy.value.policyStartDate), PolicyStartMissing)
         + Flag(!Present(policy.value.policyExpiryDate), PolicyExpiryMissing)
  }

  function MissingClaimDates(claimForm: Option<ClaimFormData>): seq<DateMismatch> {
    if claimForm.None? then []
    else Flag(!Present(claimForm.value.accidentDate), AccidentDateMissing)
         + Flag(!Present(claimForm.value.claimSubmissionDate), SubmissionDateMissing)
  }

  function MissingLicenseDates(license: Option<LicenseData>): seq<DateMismatch> {
    Flag(license.Some? && !Present(license.value.expiryDate), LicenseExpiryMissing)
  }

  /**
   * Each "missing" message is reported exactly when its field is empty on a
   * record that is present, at most once, and nothing else is reported.
   */
  lemma MissingDatesMeaning(policy: Option<PolicyData>, claimForm: Option<ClaimFormData>, license: Option<LicenseData>)
    ensures var ms := MissingDates(policy, claimForm, license);
      && (PolicyStartMissing in ms <==> policy.Some? && !Present(policy.value.policyStartDate))
      && (PolicyExpiryMissing in ms <==> policy.Some? && !Present(policy.value.policyExpiryDate))
      && (AccidentDateMissing in ms <==> claimForm.Some? && !Present(claimForm.value.accidentDate))
      && (SubmissionDateMissing in ms <==> claimForm.Some? && !Present(claimForm.value.claimSubmissionDate))
      && (LicenseExpiryMissing in ms <==> license.Some? && !Present(license.value.expiryDate))
      && (forall m :: m in ms ==> IsMissingMessage(m))
      && NoDuplicates(ms)
  {
    var a := policy.Some? && !Present(policy.value.policyStartDate);
    var b := policy.Some? && !Present(policy.value.policyExpiryDate);
    var c := claimForm.Some? && !Present(claimForm.value.accidentDate);
    var d := claimForm.Some? && !Present(claimForm.value.claimSubmissionDate);
    var e := license.Some? && !Present(license.value.expiryDate);
    assert MissingPolicyDates(policy) == Flag(a, PolicyStartMissing) + Flag(b, PolicyExpiryMissing);
    assert MissingClaimDates(claimForm) == Flag(c, AccidentDateMissing) + Flag(d, SubmissionDateMissing);
    FlagsMeaning(a, b, c, d, e);
  }

  /** The five flagged messages, each at most once and each exactly when its flag is set. */
  lemma FlagsMeaning(a: bool, b: bool, c: bool, d: bool, e: bool)
    ensures var ms := Flag(a, PolicyStartMissing) + Flag(b, PolicyExpiryMissing)
                      + (Flag(c, AccidentDateMissing) + Flag(d, SubmissionDateMissing)) + Flag(e, LicenseExpiryMissing);
      && (forall m :: m in ms <==>
            || (a && m == PolicyStartMissing) || (b && m == PolicyExpiryMissing)
            || (c && m == AccidentDateMissing) || (d && m == SubmissionDateMissing)
            || (e && m == LicenseExpiryMissing))
      && NoDuplicates(ms)
  {
    var p := Flag(a, PolicyStartMissing) + Flag(b, PolicyExpiryMissing);
    var q := Flag(c, AccidentDateMissing) + Flag(d, SubmissionDateMissing);
    NoDuplicatesAppend(p, q);
    NoDuplicatesAppend(p + q, Flag(e, LicenseExpiryMissing));
  }

  /** Policy start <= accident <= policy expiry, when all three dates parsed. */
  function PolicyRule(d: ParsedDates): Option<bool> {
    if d.policyStart.Some? && d.policyExpiry.Some? && d.accident.Some? then
      Some(DateLe(d.policyStart.value, d.accident.value) && DateLe(d.accident.value, d.policyExpiry.value))
    else None
  }

  /** Accident <= submission <= today, when both dates parsed. */
  function ClaimRule(d: ParsedDates, today: Date): Option<bool> {
    if d.accident.Some? && d.submission.Some? then
      Some(DateLe(d.accident.value, d.submission.value) && DateLe(d.submission.value, today))
    else None
  }

  /** Accident <= licence expiry, when both dates parsed. */
  function LicenseRule(d: ParsedDates): Option<bool> {
    if d.accident.Some? && d.licenseExpiry.Some? then
      Some(DateLe(d.accident.value, d.licenseExpiry.value))
    else None
  }

  function Outcome(rule: Option<bool>): seq<bool> {
    if rule.Some? then [rule.value] else []
  }

  /** `checks`: the outcome of each rule that ran, in order. */
  function RulesRun(d: ParsedDates, today: Date): seq<bool> {
    Outcome(PolicyRule(d)) + Outcome(ClaimRule(d, today)) + Outcome(LicenseRule(d))
  }

  /** The message of a failing policy rule: the bound the accident date falls outside. */
  function PolicyFailure(d: ParsedDates): (ms: seq<DateMismatch>)
    ensures |ms| == if PolicyRule(d) == Some(false) then 1 else 0
  {
    if PolicyRule(d) == Some(false) then
      var s, e, a := d.policyStart.value, d.policyExpiry.value, d.accident.value;
      DateOrderTotal(s, a);
      if DateLt(a, s) then [AccidentBeforePolicyStart(a, s)]
      else if DateLt(e, a) then [AccidentAfterPolicyExpiry(a, e)]
      else assert false; []
    else []
  }

  /** The message of a failing claim rule: the submission precedes the accident, or lies in the future. */
  function ClaimFailure(d: ParsedDates, today: Date): (ms: seq<DateMismatch>)
    ensures |ms| == if ClaimRule(d, today) == Some(false) then 1 else 0
  {
    if ClaimRule(d, today) == Some(false) then
      var a, sub := d.accident.value, d.submission.value;
      DateOrderTotal(a, sub);
      if DateLt(sub, a) then [SubmissionBeforeAccident(sub, a)]
      else if DateLt(today, sub) then [SubmissionInFuture(sub)]
      else assert false; []
    else []
  }

  /** The message of a failing licence rule. */
  function LicenseFailure(d: ParsedDates): (ms: seq<DateMismatch>)
    ensures |ms| == if LicenseRule(d) == Some(false) then 1 else 0
  {
    if LicenseRule(d) == Some(false) then [LicenseExpiredBeforeAccident(d.licenseExpiry.value, d.accident.value)]
    else []
  }

  /** The messages of the failing rules, in order: exactly one per rule that ran and failed. */
  function RuleFailures(d: ParsedDates, today: Date): seq<DateMismatch> {
    PolicyFailure(d) + ClaimFailure(d, today) + LicenseFailure(d)
  }

  /** Exactly one message per rule that ran and failed, and none of them is a "missing" message. */
  lemma RuleFailuresMeaning(d: ParsedDates, today: Date)
    ensures |RuleFailures(d, today)| == |RulesRun(d, today)| - CountTrue(RulesRun(d, today))
    ensures forall m :: m in RuleFailures(d, today) ==> !IsMissingMessage(m)
  {
    assert |RuleFailures(d, today)| == |RulesRun(d, today)| - CountTrue(RulesRun(d, today)) by {
      CountOutcomes(PolicyRule(d), ClaimRule(d, today), LicenseRule(d));
    }
    FailuresNotMissing(d, today);
  }

  lemma FailuresNotMissing(d: ParsedDates, today: Date)
    ensures forall m :: m in RuleFailures(d, today) ==> !IsMissingMessage(m)
  {
    var pf, cf, lf := PolicyFailure(d), ClaimFailure(d, today), LicenseFailure(d);
    assert forall m :: m in pf ==> !IsMissingMessage(m);
    assert forall m :: m in cf ==> !IsMissingMessage(m);
    assert forall m :: m in lf ==> !IsMissingMessage(m);
  }

  lemma CountOutcomes(a: Option<bool>, b: Option<bool>, c: Option<bool>)
    ensures |Outcome(a) + Outcome(b) + Outcome(c)| - CountTrue(Outcome(a) + Outcome(b) + Outcome(c))
            == (if a == Some(false) then 1 else 0) + (if b == Some(false) then 1 else 0) + (if c == Some(false) then 1 else 0)
  {
    CountTrueAppend(Outcome(a) + Outcome(b), Outcome(c));
    CountTrueAppend(Outcome(a), Outcome(b));
    OutcomeCount(a);
    OutcomeCount(b);
    OutcomeCount(c);
  }

  /** A rule that ran contributes one check, counted as true when it passed. */
  lemma OutcomeCount(a: Option<bool>)
    ensures |Outcome(a)| == (if a.Some? then 1 else 0)
    ensures CountTrue(Outcome(a)) == (if a == Some(true) then 1 else 0)
  {
    if a.Some? {
      assert Outcome(a)[..0] == [];
    }
  }

  lemma {:induction false} CountTrueAppend(xs: seq<bool>, ys: seq<bool>)
    ensures CountTrue(xs + ys) == CountTrue(xs) + CountTrue(ys)
    decreases |ys|
  {
    if ys != [] {
      var init := ys[..|ys| - 1];
      assert (xs + ys)[..|xs + ys| - 1] == xs + init;
      CountTrueAppend(xs, init);
    } else {
      assert xs + ys == xs;
    }
  }

  function MismatchList<T>(ms: Option<seq<T>>): seq<T> {
    if ms.Some? then ms.value else []
  }

  /** The five `_parse_date` calls of `validate_dates`: an empty or absent field is not parsed. */
  method ParseDates(strptime: Strptime, policy: Option<PolicyData>, claimForm: Option<ClaimFormData>,
                    license: Option<LicenseData>) returns (d: ParsedDates)
    ensures d == ParseAll(strptime, policy, claimForm, license)
  {
    var policyStart: Option<Date> := None;
    var policyExpiry: Option<Date> := None;
    var accidentDate: Option<Date> := None;
    var claimSubmission: Option<Date> := None;
    var licenseExpiry: Option<Date> := None;
    if policy.Some? && Present(policy.value.policyStartDate) {
      policyStart := ParseDate(strptime, policy.value.policyStartDate.value);
    }
    if policy.Some? && Present(policy.value.policyExpiryDate) {
      policyExpiry := ParseDate(strptime, policy.value.policyExpiryDate.value);
    }
    if claimForm.Some? && Present(claimForm.value.accidentDate) {
      accidentDate := ParseDate(strptime, claimForm.value.accidentDate.value);
    }
    if claimForm.Some? && Present(claimForm.value.claimSubmissionDate) {
      claimSubmission := ParseDate(strptime, claimForm.value.claimSubmissionDate.value);
    }
    if license.Some? && Present(license.value.expiryDate) {
      licenseExpiry := ParseDate(strptime, license.value.expiryDate.value);
    }
    d := ParsedDates(policyStart, policyExpiry, accidentDate, claimSubmission, licenseExpiry);
  }

  /** The "missing" messages of `validate_dates`, appended one empty field at a time. */
  method ReportMissingDates(policy: Option<PolicyData>, claimForm: Option<ClaimFormData>, license: Option<LicenseData>)
      returns (mismatches: seq<DateMismatch>)
    ensures mismatches == MissingDates(policy, claimForm, license)
  {
    mismatches := ReportMissingPolicyDates(policy, []);
    assert mismatches == MissingPolicyDates(policy);
    mismatches := ReportMissingClaimDates(claimForm, mismatches);
    if license.Some? && !Present(license.value.expiryDate) {
      mismatches := mismatches + [LicenseExpiryMissing];
    }
  }

  /** The policy's two "missing" messages, appended to `mismatches`. */
  method ReportMissingPolicyDates(policy: Option<PolicyData>, mismatches: seq<DateMismatch>)
      returns (mismatches': seq<DateMismatch>)
    ensures mismatches' == mismatches + MissingPolicyDates(policy)
  {
    mismatches' := mismatches;
    if policy.Some? {
      var start := Flag(!Present(policy.value.policyStartDate), PolicyStartMissing);
      var expiry := Flag(!Present(policy.value.policyExpiryDate), PolicyExpiryMissing);
      if !Present(policy.value.policyStartDate) {
        mismatches' := mismatches' + [PolicyStartMissing];
      }
      if !Present(policy.value.policyExpiryDate) {
        mismatches' := mismatches' + [PolicyExpiryMissing];
      }
      AppendAssociative3(mismatches, start, expiry);
    }
  }

  /** The claim form's two "missing" messages, appended to `mismatches`. */
  method ReportMissingClaimDates(claimForm: Option<ClaimFormData>, mismatches: seq<DateMismatch>)
      returns (mismatches': seq<DateMismatch>)
    ensures mismatches' == mismatches + MissingClaimDates(claimForm)
  {
    mismatches' := mismatches;
    if claimForm.Some? {
      var accident := Flag(!Present(claimForm.value.accidentDate), AccidentDateMissing);
      var submission := Flag(!Present(claimForm.value.claimSubmissionDate), SubmissionDateMissing);
      if !Present(claimForm.value.accidentDate) {
        mismatches' := mismatches' + [AccidentDateMissing];
      }
      if !Present(claimForm.value.claimSubmissionDate) {
        mismatches' := mismatches' + [SubmissionDateMissing];
      }
      AppendAssociative3(mismatches, accident, submission);
    }
  }

  /**
   * The policy-period block: with all three dates parsed it records the
   * outcome and, on failure, the bound the accident falls outside; with a
   * policy but a date missing the flag is `False` and nothing is recorded.
   */
  method CheckPolicyPeriod(d: ParsedDates, policyPresent: bool, checks: seq<bool>, mismatches: seq<DateMismatch>)
      returns (check: Option<bool>, newChecks: seq<bool>, newMismatches: seq<DateMismatch>)
    ensures check == if PolicyRule(d).Some? then PolicyRule(d) else if policyPresent then Some(false) else None
    ensures newChecks == checks + Outcome(PolicyRule(d))
    ensures newMismatches == mismatches + PolicyFailure(d)
  {
    check, newChecks, newMismatches := None, checks, mismatches;
    if d.policyStart.Some? && d.policyExpiry.Some? && d.accident.Some? {
      var s, e, a := d.policyStart.value, d.policyExpiry.value, d.accident.value;
      if DateLe(s, a) && DateLe(a, e) {
        check := Some(true);
        newChecks := checks + [true];
      } else {
        check := Some(false);
        newChecks := checks + [false];
        if DateLt(a, s) {
          newMismatches := mismatches + [AccidentBeforePolicyStart(a, s)];
        } else if DateLt(e, a) {
          newMismatches := mismatches + [AccidentAfterPolicyExpiry(a, e)];
        }
      }
    } else if policyPresent {
      check := Some(false);
    }
  }

  /** The claim-timeline block: accident <= submission <= today, when both dates parsed. */
  method CheckClaimTimeline(d: ParsedDates, today: Date, checks: seq<bool>, mismatches: seq<DateMismatch>)
      returns (check: Option<bool>, newChecks: seq<bool>, newMismatches: seq<DateMismatch>)
    ensures check == ClaimRule(d, today)
    ensures newChecks == checks + Outcome(ClaimRule(d, today))
    ensures newMismatches == mismatches + ClaimFailure(d, today)
  {
    check, newChecks, newMismatches := None, checks, mismatches;
    if d.accident.Some? && d.submission.Some? {
      var a, sub := d.accident.value, d.submission.value;
      if DateLe(a, sub) && DateLe(sub, today) {
        check := Some(true);
        newChecks := checks + [true];
      } else {
        check := Some(false);
        newChecks := checks + [false];
        if DateLt(sub, a) {
          newMismatches := mismatches + [SubmissionBeforeAccident(sub, a)];
        } else if DateLt(today, sub) {
          newMismatches := mismatches + [SubmissionInFuture(sub)];
        }
      }
    }
  }

  /** The licence block: accident <= licence expiry, when both dates parsed. */
  method CheckLicenseExpiry(d: ParsedDates, checks: seq<bool>, mismatches: seq<DateMismatch>)
      returns (check: Option<bool>, newChecks: seq<bool>, newMismatches: seq<DateMismatch>)
    ensures check == LicenseRule(d)
    ensures newChecks == checks + Outcome(LicenseRule(d))
    ensures newMismatches == mismatches + LicenseFailure(d)
  {
    check, newChecks, newMismatches := None, checks, mismatches;
    if d.accident.Some? && d.licenseExpiry.Some? {
      var a, le := d.accident.value, d.licenseExpiry.value;
      if DateLe(a, le) {
        check := Some(true);
        newChecks := checks + [true];
      } else {
        check := Some(false);
        newChecks := checks + [false];
        newMismatches := mismatches + [LicenseExpiredBeforeAccident(le, a)];
      }
    }
  }

  /** The three rule blocks of `validate_dates`, in order, after the "missing" messages. */
  method RunDateRules(d: ParsedDates, today: Date, policyPresent: bool, mismatches: seq<DateMismatch>)
      returns (policyCheck: Option<bool>, claimCheck: Option<bool>, licenseCheck: Option<bool>,
               checks: seq<bool>, mismatches': seq<DateMismatch>)
    ensures policyCheck == if PolicyRule(d).Some? then PolicyRule(d) else if policyPresent then Some(false) else None
    ensures claimCheck == ClaimRule(d, today) && licenseCheck == LicenseRule(d)
    ensures checks == RulesRun(d, today)
    ensures mismatches' == mismatches + RuleFailures(d, today)
  {
    checks := [];
    policyCheck, checks, mismatches' := CheckPolicyPeriod(d, policyPresent, checks, mismatches);
    claimCheck, checks, mismatches' := CheckClaimTimeline(d, today, checks, mismatches');
    licenseCheck, checks, mismatches' := CheckLicenseExpiry(d, checks, mismatches');
    AppendAssociative(mismatches, PolicyFailure(d), ClaimFailure(d, today), LicenseFailure(d));
  }

  /**
   * The `DateValidationResult` for the parsed dates `d`, the "missing"
   * messages `missing` and whether a policy was given.
   */
  function DateVerdict(d: ParsedDates, today: Date, missing: seq<DateMismatch>, policyPresent: bool): DateResult {
    var ms := missing + RuleFailures(d, today);
    var confidence := TrueFraction(RulesRun(d, today));
    var valid := |ms| == 0 && confidence >= 0.8;
    DateResult(
      isValid := valid,
      confidence := confidence,
      policyDateCheck := if PolicyRule(d).Some? then PolicyRule(d) else if policyPresent then Some(false) else None,
      claimDateCheck := ClaimRule(d, today),
      licenseExpiryCheck := LicenseRule(d),
      mismatches := if |ms| > 0 then Some(ms) else None,
      message := if valid then AllDatesValid else DateIssuesFound(|ms|))
  }

  /**
   * The mismatches are the "missing" messages followed by one message per
   * failing rule; the policy flag is `False` when a policy is present but a
   * rule date did not parse, the claim and licence flags are `None`
   * whenever their rule did not run; the confidence is the fraction of
   * rules that ran and passed; and the result is valid exactly when nothing
   * is reported and at least one rule ran.
   */
  lemma DateVerdictMeaning(d: ParsedDates, today: Date, missing: seq<DateMismatch>, policyPresent: bool)
    ensures var r := DateVerdict(d, today, missing, policyPresent);
      && r.Valid()
      && (r.policyDateCheck.None? <==> !policyPresent && PolicyRule(d).None?)
      && (r.claimDateCheck.None? <==> ClaimRule(d, today).None?)
      && MismatchList(r.mismatches) == missing + RuleFailures(d, today)
      && r.mismatches != Some([])
      && r.confidence == TrueFraction(RulesRun(d, today))
      && (r.isValid <==> missing == [] && RulesRun(d, today) != [] && forall i :: 0 <= i < |RulesRun(d, today)| ==> RulesRun(d, today)[i])
      && (r.isValid <==> r.mismatches.None? && RulesRun(d, today) != [])
      && (r.isValid ==> r.confidence == 1.0)
  {
    var checks := RulesRun(d, today);
    RuleFailuresMeaning(d, today);
    CountTrueBounds(checks);
    TrueFractionOne(checks);
  }

  /** `validate_dates`. */
  method ValidateDates(strptime: Strptime, today: Date, policy: Option<PolicyData>,
                       claimForm: Option<ClaimFormData>, license: Option<LicenseData>) returns (r: DateResult)
    ensures r == DateVerdict(ParseAll(strptime, policy, claimForm, license), today,
                             MissingDates(policy, claimForm, license), policy.Some?)
  {
    var d := ParseDates(strptime, policy, claimForm, license);
    var mismatches := ReportMissingDates(policy, claimForm, license);
    var policyDateCheck, claimDateCheck, licenseExpiryCheck, checks;
    policyDateCheck, claimDateCheck, licenseExpiryCheck, checks, mismatches :=
      RunDateRules(d, today, policy.Some?, mismatches);

    var confidence := TrueFraction(checks);
    var isValid := |mismatches| == 0 && confidence >= 0.8;
    r := DateResult(
      isValid := isValid,
      confidence := confidence,
      policyDateCheck := policyDateCheck,
      claimDateCheck := claimDateCheck,
      licenseExpiryCheck := licenseExpiryCheck,
      mismatches := if |mismatches| > 0 then Some(mismatches) else None,
      message := if isValid then AllDatesValid else DateIssuesFound(|mismatches|));
  }
}
