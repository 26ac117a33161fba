/**
 * The damage analysis of `VisionService`: one vision-model call per car
 * image (`_analyze_damage_sync`), and the merge of the per-image answers
 * into one `DamageDetectionResult` (`analyze_multiple_images`).
 *
 * The HTTP call is a parameter (`VisionApi`: image bytes, accident
 * description and expected location to the endpoint's reply), as are
 * `json.loads` and `float` on strings. The order in which the worker
 * threads finish is a parameter too: a permutation of the image indices.
 */
module VisionService {
  import opened Basics
  import opened Text
  import opened Json
  import opened ClaimSchema
  import opened DataExtraction

  // ---------------------------------------------------------------------
  // One image

  /** What one request to the vision endpoint came back with. */
  datatype VisionReply =
    | StatusError(status: int, body: string)  // `raise_for_status` raised
    | RequestFailed                           // the transport or `response.json()` raised
    | NoChoices                               // no `choices`, or an empty list of them
    | Choice(content: string)                 // `choices[0].message.content`

  /** The endpoint, as a function of the image bytes, the accident description and the expected damage location. */
  type VisionApi = (seq<bv8>, Option<string>, Option<string>) -> VisionReply

  /** Which step raised: the `error` entry of a failed analysis. */
  datatype VisionError =
    | ApiError(status: int, body: string)
    | RequestError
    | NoResponse
    | DecodeError
    | NotADictionary
    | InvalidConfidence

  /** `{"success": …, "error": …, "data": …, "confidence": …}` */
  datatype Analysis = Analysis(success: bool, error: Option<VisionError>, data: Object, confidence: real)
  {
    predicate Valid() {
      InUnit(confidence) && (success <==> error.None?)
    }
  }

  /** The `data` of every failed analysis (lines 124-130 and 138-144). */
  const FallbackData: Object := map[
    "detected_damage" := List([]),
    "damage_locations" := List([]),
    "likely_damaged_parts" := List([]),
    "matches_description" := Bool(false),
    "confidence" := Num(0.0)]

  /** Both `except` branches: no success, the error, the fallback data and confidence 0.0. */
  function Fallback(e: VisionError): Analysis {
    Analysis(false, Some(e), FallbackData, 0.0)
  }

  /**
   * Lines 107-116, from what `json.loads` gave (`None` where it raised):
   * the decoded dictionary is kept whole, its `confidence` entry included,
   * and the confidence is read from it and clamped to [0, 1].
   */
  function Judge(decoded: Option<Value>, parseFloat: FloatParser): Analysis {
    if decoded.None? then Fallback(DecodeError)
    else if !decoded.value.Dict? then Fallback(NotADictionary)
    else
      var data := decoded.value.entries;
      var value := ConfidenceValue(Get(data, "confidence", Num(0.0)), parseFloat);
      if value.None? then Fallback(InvalidConfidence)
      else Analysis(true, None, data, Clamp(value.value))
  }

  /** The analysis `_analyze_damage_sync` returns for the endpoint's reply. */
  function AnalysisOf(reply: VisionReply, decode: Decoder, parseFloat: FloatParser): Analysis {
    match reply
    case StatusError(status, body) => Fallback(ApiError(status, body))
    case RequestFailed => Fallback(RequestError)
    case NoChoices => Fallback(NoResponse)
    case Choice(content) => Judge(decode(CleanReply(content)), parseFloat)
  }

  /**
   * Every analysis is well formed, and a failed one carries the fallback
   * data and confidence 0.0 whatever went wrong.
   */
  lemma AnalysisShape(reply: VisionReply, decode: Decoder, parseFloat: FloatParser)
    ensures AnalysisOf(reply, decode, parseFloat).Valid()
    ensures var a := AnalysisOf(reply, decode, parseFloat);
      !a.success ==> a.data == FallbackData && a.confidence == 0.0
  {
    if reply.Choice? {
      JudgeShape(decode(CleanReply(reply.content)), parseFloat);
    }
  }

  lemma JudgeShape(decoded: Option<Value>, parseFloat: FloatParser)
    ensures Judge(decoded, parseFloat).Valid()
    ensures var a := Judge(decoded, parseFloat);
      !a.success ==> a.data == FallbackData && a.confidence == 0.0
  {
  }

  /**
   * An analysis succeeds exactly when the endpoint answered with content
   * that decodes to a dictionary whose confidence converts to a number;
   * then the data is that dictionary, unchanged, and the confidence is the
   * clamped number (0.0 when the entry is absent or `null`).
   */
  lemma AnalysisSucceeds(reply: VisionReply, decode: Decoder, parseFloat: FloatParser)
    ensures var a := AnalysisOf(reply, decode, parseFloat);
      a.success <==>
        && reply.Choice?
        && decode(CleanReply(reply.content)).Some?
        && decode(CleanReply(reply.content)).value.Dict?
        && ConfidenceValue(Get(decode(CleanReply(reply.content)).value.entries, "confidence", Num(0.0)), parseFloat).Some?
    ensures var a := AnalysisOf(reply, decode, parseFloat);
      a.success ==>
        && a.data == decode(CleanReply(reply.content)).value.entries
        && a.confidence == Clamp(ConfidenceValue(Get(a.data, "confidence", Num(0.0)), parseFloat).value)
        && ("confidence" !in a.data ==> a.confidence == 0.0)
  {
    if reply.Choice? {
      var decoded := decode(CleanReply(reply.content));
      assert AnalysisOf(reply, decode, parseFloat) == Judge(decoded, parseFloat);
    }
  }

  /** The location passed for one image: `img_data.get("angle_description") or expected_damage_location` (line 215). */
  function LocationFor(angleDescription: Option<string>, expectedLocation: Option<string>): (l: Option<string>)
    ensures Present(angleDescription) ==> l == angleDescription
    ensures !Present(angleDescription) ==> l == expectedLocation
  {
    if Present(angleDescription) then angleDescription else expectedLocation
  }

  /**
   * `_analyze_damage_sync`: `content` is rewritten step by step as in the
   * source, and every step that raises ends in the fallback.
   */
  method AnalyzeDamage(api: VisionApi, decode: Decoder, parseFloat: FloatParser,
                       image: seq<bv8>, accidentDescription: Option<string>, damageLocation: Option<string>)
      returns (r: Analysis)
    ensures r == AnalysisOf(api(image, accidentDescription, damageLocation), decode, parseFloat)
  {
    var reply := api(image, accidentDescription, damageLocation);
    match reply {
      case StatusError(status, body) =>
        return Fallback(ApiError(status, body));
      case RequestFailed =>
        return Fallback(RequestError);
      case NoChoices =>
        return Fallback(NoResponse);
      case Choice(text) =>
        var content := Strip(text);
        if StartsWith(content, Fence) {
          content := Before(content[|Fence|..], Fence);
          if StartsWith(content, "json") {
            content := content[4..];
          }
          content := Strip(content);
        }
        assert content == CleanReply(text);
        var decoded := decode(content);
        if decoded.None? {
          return Fallback(DecodeError);
        }
        if !decoded.value.Dict? {
          return Fallback(NotADictionary);
        }
        var data := decoded.value.entries;
        var raw := if "confidence" in data then data["confidence"] else Num(0.0);
        var value := ConfidenceValue(raw, parseFloat);
        if value.None? {
          return Fallback(InvalidConfidence);
        }
        return Analysis(true, None, data, Clamp(value.value));
    }
  }

  // ---------------------------------------------------------------------
  // Merging the analyses

  /** One image to analyse: its bytes and an optional description of the angle. */
  datatype ImageInput = ImageInput(bytes: seq<bv8>, angleDescription: Option<string>)

  /** Why `analyze_multiple_images` raised. */
  datatype MergeError =
    | NoWorkers      // `ThreadPoolExecutor(max_workers=0)` for an empty list of images
    | Malformed      // an entry of some successful analysis cannot be merged

  /**
   * `all_damage.extend(v)` and the `List[Dict]` field: the damage items a
   * value contributes, or `None` where `extend` raises (not iterable) or
   * the result fails validation (an item that is not a dictionary; the
   * characters of a string and the keys of a dictionary are strings).
   */
  function DamageItems(v: Value): (r: Option<seq<Object>>)
    ensures r.Some? ==> v.List? || v == Str("") || v == Dict(map[])
    ensures r.Some? && !v.List? ==> r.value == []
  {
    match v
    case List(items) => DictItems(items)
    case Str(s) => if s == "" then Some([]) else None
    case Dict(m) => if m == map[] then Some([]) else None
    case _ => None
  }

  /**
   * `all_locations.update(v)` and the `List[str]` field: the labels a
   * value contributes, or `None` where `update` raises (not iterable, an
   * unhashable item) or the result fails validation (an item that is not a
   * string). A string contributes its characters, a dictionary its keys.
   */
  function Labels(v: Value): (r: Option<set<string>>)
    ensures r.Some? <==> v.Str? || v.Dict? || (v.List? && forall i :: 0 <= i < |v.items| ==> v.items[i].Str?)
  {
    match v
    case List(items) =>
      StrItemsMeaning(items, "");
      StrItems(items)
    case Str(s) => Some(Chars(s))
    case Dict(m) => Some(m.Keys)
    case _ => None
  }

  /** The dictionaries of a list, or `None` when some item is not one. */
  function DictItems(items: seq<Value>): Option<seq<Object>> {
    if items == [] then Some([])
    else
      var init := DictItems(items[..|items| - 1]);
      var last := items[|items| - 1];
      if init.Some? && last.Dict? then Some(init.value + [last.entries]) else None
  }

  /** The strings of a list, as a set, or `None` when some item is not one. */
  function StrItems(items: seq<Value>): Option<set<string>> {
    if items == [] then Some({})
    else
      var init := StrItems(items[..|items| - 1]);
      var last := items[|items| - 1];
      if init.Some? && last.Str? then Some(init.value + {last.s}) else None
  }

  /** The one-character strings of `s`: what iterating over a string yields. */
  function Chars(s: string): set<string> {
    if s == [] then {} else Chars(s[..|s| - 1]) + {[s[|s| - 1]]}
  }

  /** `extend` over a list of dictionaries adds them in order; any other item fails validation. */
  lemma {:induction false} DictItemsMeaning(items: seq<Value>)
    ensures DictItems(items).Some? <==> forall i :: 0 <= i < |items| ==> items[i].Dict?
    ensures DictItems(items).Some? ==>
      |DictItems(items).value| == |items|
      && forall i :: 0 <= i < |items| ==> DictItems(items).value[i] == items[i].entries
  {
    if items != [] {
      var init := items[..|items| - 1];
      DictItemsMeaning(init);
      assert forall i :: 0 <= i < |init| ==> init[i] == items[i];
    }
  }

  /** `update` over a list of strings adds each of them; any other item fails validation. */
  lemma {:induction false} StrItemsMeaning(items: seq<Value>, x: string)
    ensures StrItems(items).Some? <==> forall i :: 0 <= i < |items| ==> items[i].Str?
    ensures StrItems(items).Some? ==>
      (x in StrItems(items).value <==> exists i :: 0 <= i < |items| && items[i] == Str(x))
  {
    if items != [] {
      var init := items[..|items| - 1];
      StrItemsMeaning(init, x);
      assert forall i :: 0 <= i < |init| ==> init[i] == items[i];
    }
  }

  /**
   * Which entries merge into `all_damage`: a list of dictionaries, added in
   * order; an empty string or dictionary, adding nothing; nothing else (a
   * non-empty string or dictionary yields items that are not dictionaries,
   * and a number, boolean or `None` is not iterable).
   */
  lemma DamageItemsMeaning(v: Value)
    ensures v.List? ==>
      && (DamageItems(v).Some? <==> forall i :: 0 <= i < |v.items| ==> v.items[i].Dict?)
      && (DamageItems(v).Some? ==>
            |DamageItems(v).value| == |v.items|
            && forall i :: 0 <= i < |v.items| ==> DamageItems(v).value[i] == v.items[i].entries)
    ensures v.Str? ==> (DamageItems(v).Some? <==> v.s == "")
    ensures v.Dict? ==> (DamageItems(v).Some? <==> v.entries == map[])
    ensures !v.List? && DamageItems(v).Some? ==> DamageItems(v).value == []
    ensures v.Null? || v.Bool? || v.Num? || v.ObjectId? ==> DamageItems(v).None?
  {
    if v.List? {
      DictItemsMeaning(v.items);
    }
  }

  /**
   * The labels an entry adds to a location or part set: the strings of a
   * list of strings, the one-character strings of a string, the keys of a
   * dictionary; any other value fails.
   */
  lemma LabelsMeaning(v: Value, x: string)
    ensures v.List? ==>
      && (Labels(v).Some? <==> forall i :: 0 <= i < |v.items| ==> v.items[i].Str?)
      && (Labels(v).Some? ==> (x in Labels(v).value <==> exists i :: 0 <= i < |v.items| && v.items[i] == Str(x)))
    ensures v.Str? ==> Labels(v).Some? && (x in Labels(v).value <==> exists i :: 0 <= i < |v.s| && x == [v.s[i]])
    ensures v.Dict? ==> Labels(v).Some? && (x in Labels(v).value <==> x in v.entries)
    ensures v.Null? || v.Bool? || v.Num? || v.ObjectId? ==> Labels(v).None?
  {
    match v
    case List(items) => StrItemsMeaning(items, x);
    case Str(s) => CharsMeaning(s, x);
    case _ =>
  }

  /** Iterating over a string yields its characters, each as a string of length one. */
  lemma {:induction false} CharsMeaning(s: string, x: string)
    ensures x in Chars(s) <==> exists i :: 0 <= i < |s| && x == [s[i]]
  {
    if s != [] {
      var init := s[..|s| - 1];
      CharsMeaning(init, x);
      assert forall i :: 0 <= i < |init| ==> init[i] == s[i];
    }
  }

  function DamageEntry(a: Analysis): Value {
    Get(a.data, "detected_damage", List([]))
  }

  function LocationsEntry(a: Analysis): Value {
    Get(a.data, "damage_locations", List([]))
  }

  function PartsEntry(a: Analysis): Value {
    Get(a.data, "likely_damaged_parts", List([]))
  }

  /** A failed analysis is skipped; a successful one must have entries that merge. */
  predicate Mergeable(a: Analysis) {
    !a.success
    || (DamageItems(DamageEntry(a)).Some? && Labels(LocationsEntry(a)).Some? && Labels(PartsEntry(a)).Some?)
  }

  predicate AllMergeable(os: seq<Analysis>) {
    forall k :: 0 <= k < |os| ==> Mergeable(os[k])
  }

  /** What one analysis adds to `all_damage` (line 226). */
  function DamageOf(a: Analysis): seq<Object> {
    if a.success && DamageItems(DamageEntry(a)).Some? then DamageItems(DamageEntry(a)).value else []
  }

  /** What one analysis adds to `all_locations` (line 227). */
  function LocationsOf(a: Analysis): set<string> {
    if a.success && Labels(LocationsEntry(a)).Some? then Labels(LocationsEntry(a)).value else {}
  }

  /** What one analysis adds to `all_parts` (line 228). */
  function PartsOf(a: Analysis): set<string> {
    if a.success && Labels(PartsEntry(a)).Some? then Labels(PartsEntry(a)).value else {}
  }

  /** What one analysis adds to `confidences` (line 229). */
  function ConfidenceOf(a: Analysis): seq<real> {
    if a.success then [a.confidence] else []
  }

  /** What one analysis adds to `matches` (line 230), as its truth value. */
  function MatchOf(a: Analysis): seq<bool> {
    if a.success then [Truthy(Get(a.data, "matches_description", Bool(false)))] else []
  }

  /**
   * `r` is the `DamageDetectionResult` built from the analyses in the order
   * they arrived: the damage items concatenated in that order, the
   * locations and parts as lists without repetitions (in an order Python
   * leaves open), the mean confidence of the successful analyses, and
   * whether any of them said the damage matches the description.
   */
  ghost predicate MergedFrom(r: DamageResult, arrived: seq<Analysis>) {
    && r.detectedDamage == FlatMap(DamageOf, arrived)
    && NoDuplicates(r.damageLocations)
    && (forall x :: x in r.damageLocations <==> x in UnionOf(LocationsOf, arrived))
    && NoDuplicates(r.likelyDamagedParts)
    && (forall x :: x in r.likelyDamagedParts <==> x in UnionOf(PartsOf, arrived))
    && r.confidence == Mean(FlatMap(ConfidenceOf, arrived))
    && (r.matchesDescription <==> true in FlatMap(MatchOf, arrived))
    && r.unlikelyDamagedParts.None?
  }

  /** The analyses of the images, in the order they were submitted (lines 210-218). */
  function Outcomes(api: VisionApi, decode: Decoder, parseFloat: FloatParser, images: seq<ImageInput>,
                    accidentDescription: Option<string>, expectedLocation: Option<string>): (os: seq<Analysis>)
    ensures |os| == |images|
  {
    seq(|images|, i requires 0 <= i < |images| =>
      AnalysisOf(api(images[i].bytes, accidentDescription, LocationFor(images[i].angleDescription, expectedLocation)),
                 decode, parseFloat))
  }

  /** The analysis of the image with index `i`, as a one-element list. */
  function Pick(os: seq<Analysis>): nat -> seq<Analysis> {
    i => if 0 <= i < |os| then [os[i]] else []
  }

  /** The analyses in the order `as_completed` yields them. */
  function Arrival(os: seq<Analysis>, order: seq<nat>): seq<Analysis> {
    FlatMap(Pick(os), order)
  }

  /** `order` lists every index below `n` exactly once. */
  predicate IsOrder(order: seq<nat>, n: nat) {
    multiset(order) == multiset(Range(n))
  }

  lemma {:induction false} OrderBounded(order: seq<nat>, n: nat, k: nat)
    requires IsOrder(order, n) && k < |order|
    ensures order[k] < n
  {
    assert order[k] in multiset(Range(n));
  }

  lemma {:induction false} ArrivalAt(os: seq<Analysis>, order: seq<nat>)
    requires IsOrder(order, |os|)
    ensures |Arrival(os, order)| == |order|
    ensures forall k :: 0 <= k < |order| ==> order[k] < |os| && Arrival(os, order)[k] == os[order[k]]
    decreases |order|
  {
    forall k | 0 <= k < |order|
      ensures order[k] < |os|
    {
      OrderBounded(order, |os|, k);
    }
    ArrivalAtBounded(os, order);
  }

  lemma {:induction false} ArrivalAtBounded(os: seq<Analysis>, order: seq<nat>)
    requires forall k :: 0 <= k < |order| ==> order[k] < |os|
    ensures |Arrival(os, order)| == |order|
    ensures forall k :: 0 <= k < |order| ==> Arrival(os, order)[k] == os[order[k]]
    decreases |order|
  {
    if order != [] {
      ArrivalAtBounded(os, order[..|order| - 1]);
    }
  }

  lemma {:induction false} PickRange(os: seq<Analysis>, n: nat)
    requires n <= |os|
    ensures FlatMap(Pick(os), Range(n)) == os[..n]
  {
    if n > 0 {
      assert Range(n)[..n - 1] == Range(n - 1);
      PickRange(os, n - 1);
      assert os[..n] == os[..n - 1] + [os[n - 1]];
    }
  }

  /** The analyses arrive in some order, but each of them exactly once. */
  lemma ArrivalPermutation(os: seq<Analysis>, order: seq<nat>)
    requires IsOrder(order, |os|)
    ensures multiset(Arrival(os, order)) == multiset(os)
  {
    FlatMapPermutation(Pick(os), order, Range(|os|));
    PickRange(os, |os|);
    assert os[..|os|] == os;
  }

  lemma {:induction false} FlatMapStep<T, U>(f: T -> seq<U>, xs: seq<T>, k: nat)
    requires k < |xs|
    ensures FlatMap(f, xs[..k + 1]) == FlatMap(f, xs[..k]) + f(xs[k])
  {
    assert xs[..k + 1][..k] == xs[..k];
  }

  lemma {:induction false} UnionOfStep<T, U>(f: T -> set<U>, xs: seq<T>, k: nat)
    requires k < |xs|
    ensures UnionOf(f, xs[..k + 1]) == UnionOf(f, xs[..k]) + f(xs[k])
  {
    assert xs[..k + 1][..k] == xs[..k];
  }

  lemma {:induction false} ConfidencesInUnit(os: seq<Analysis>)
    requires forall k :: 0 <= k < |os| ==> os[k].Valid()
    ensures AllInUnit(FlatMap(ConfidenceOf, os))
  {
    if os != [] {
      ConfidencesInUnit(os[..|os| - 1]);
    }
  }

  /** `list(s)`: the elements of a set, each once, in an order Python leaves open. */
  method SetToList(s: set<string>) returns (xs: seq<string>)
    ensures NoDuplicates(xs)
    ensures forall x :: x in xs <==> x in s
  {
    xs := [];
    var rest := s;
    while rest != {}
      invariant rest <= s
      invariant NoDuplicates(xs)
      invariant forall x :: x in xs <==> x in s && x !in rest
      decreases rest
    {
      var x :| x in rest;
      xs := xs + [x];
      rest := rest - {x};
    }
  }

  lemma NotAllMergeable(outcomes: seq<Analysis>, arrived: seq<Analysis>, k: nat)
    requires multiset(arrived) == multiset(outcomes)
    requires k < |arrived| && !Mergeable(arrived[k])
    ensures !AllMergeable(outcomes)
  {
    assert arrived[k] in multiset(outcomes);
  }

  lemma AllMergeablePermutation(arrived: seq<Analysis>, outcomes: seq<Analysis>)
    requires multiset(arrived) == multiset(outcomes)
    requires forall j :: 0 <= j < |arrived| ==> Mergeable(arrived[j])
    ensures AllMergeable(outcomes)
  {
    forall j | 0 <= j < |outcomes|
      ensures Mergeable(outcomes[j])
    {
      assert outcomes[j] in multiset(arrived);
    }
  }

  /**
   * Lines 224-230 for one analysis: a failed one changes nothing; a
   * successful one extends the accumulators, or raises (`ok` false) when
   * one of its entries cannot be merged.
   */
  method Absorb(result: Analysis, allDamage: seq<Object>, allLocations: set<string>, allParts: set<string>,
                confidences: seq<real>, matches: seq<bool>)
      returns (ok: bool, allDamage': seq<Object>, allLocations': set<string>, allParts': set<string>,
               confidences': seq<real>, matches': seq<bool>)
    ensures ok <==> Mergeable(result)
    ensures ok ==>
      && allDamage' == allDamage + DamageOf(result)
      && allLocations' == allLocations + LocationsOf(result)
      && allParts' == allParts + PartsOf(result)
      && confidences' == confidences + ConfidenceOf(result)
      && matches' == matches + MatchOf(result)
  {
    ok, allDamage', allLocations', allParts', confidences', matches' :=
      true, allDamage, allLocations, allParts, confidences, matches;
    if result.success {
      var data := result.data;
      var damage := DamageItems(Get(data, "detected_damage", List([])));
      var locations := Labels(Get(data, "damage_locations", List([])));
      var parts := Labels(Get(data, "likely_damaged_parts", List([])));
      if damage.None? || locations.None? || parts.None? {
        return false, allDamage, allLocations, allParts, confidences, matches;
      }
      allDamage' := allDamage + damage.value;
      allLocations' := allLocations + locations.value;
      allParts' := allParts + parts.value;
      confidences' := confidences + [result.confidence];
      matches' := matches + [Truthy(Get(data, "matches_description", Bool(false)))];
    } else {
      assert allDamage + [] == allDamage && confidences + [] == confidences && matches + [] == matches;
    }
  }

  /** The five accumulators of lines 201-205. */
  datatype Accumulators = Accumulators(
    allDamage: seq<Object>, allLocations: set<string>, allParts: set<string>,
    confidences: seq<real>, matches: seq<bool>)

  /** The accumulators after merging the analyses `arrived`, in order. */
  function Accumulated(arrived: seq<Analysis>): Accumulators {
    Accumulators(FlatMap(DamageOf, arrived), UnionOf(LocationsOf, arrived), UnionOf(PartsOf, arrived),
                 FlatMap(ConfidenceOf, arrived), FlatMap(MatchOf, arrived))
  }

  /**
   * `Absorb` on the `k`-th arriving analysis: accumulators that hold the
   * merge of the first `k` arrivals then hold the merge of the first `k + 1`.
   */
  method AbsorbNext(ghost arrived: seq<Analysis>, k: nat, result: Analysis, acc: Accumulators)
      returns (ok: bool, acc': Accumulators)
    requires k < |arrived| && result == arrived[k]
    requires acc == Accumulated(arrived[..k])
    ensures ok <==> Mergeable(arrived[k])
    ensures ok ==> acc' == Accumulated(arrived[..k + 1])
  {
    FlatMapStep(DamageOf, arrived, k);
    UnionOfStep(LocationsOf, arrived, k);
    UnionOfStep(PartsOf, arrived, k);
    FlatMapStep(ConfidenceOf, arrived, k);
    FlatMapStep(MatchOf, arrived, k);
    var allDamage, allLocations, allParts, confidences, matches;
    ok, allDamage, allLocations, allParts, confidences, matches :=
      Absorb(result, acc.allDamage, acc.allLocations, acc.allParts, acc.confidences, acc.matches);
    acc' := Accumulators(allDamage, allLocations, allParts, confidences, matches);
  }

  /**
   * The loop of lines 221-230 over the analyses in the order `order` says
   * they completed. It stops (`ok` false) at the first successful analysis
   * whose entries cannot be merged; otherwise the accumulators hold the
   * merge of every arrival.
   */
  method Collect(outcomes: seq<Analysis>, order: seq<nat>) returns (ok: bool, acc: Accumulators)
    requires IsOrder(order, |outcomes|)
    ensures ok <==> forall j :: 0 <= j < |Arrival(outcomes, order)| ==> Mergeable(Arrival(outcomes, order)[j])
    ensures ok ==> acc == Accumulated(Arrival(outcomes, order))
  {
    ghost var arrived := Arrival(outcomes, order);
    ArrivalAt(outcomes, order);
    acc := Accumulators([], {}, {}, [], []);
    for k := 0 to |order|
      invariant forall j :: 0 <= j < k ==> Mergeable(arrived[j])
      invariant acc == Accumulated(arrived[..k])
    {
      ok, acc := AbsorbNext(arrived, k, outcomes[order[k]], acc);
      if !ok {
        return;
      }
    }
    ok := true;
    assert arrived[..|order|] == arrived;
  }

  /**
   * Lines 201-241 after the analyses are in: the merge of the arrivals,
   * with the location and part sets listed and the confidences averaged.
   */
  method MergeAnalyses(outcomes: seq<Analysis>, order: seq<nat>) returns (r: Result<DamageResult, MergeError>)
    requires IsOrder(order, |outcomes|)
    requires forall j :: 0 <= j < |outcomes| ==> outcomes[j].Valid()
    ensures r.Ok? <==> AllMergeable(outcomes)
    ensures r.Err? ==> r.error == Malformed
    ensures r.Ok? ==> r.value.Valid() && MergedFrom(r.value, Arrival(outcomes, order))
  {
    ghost var arrived := Arrival(outcomes, order);
    ArrivalPermutation(outcomes, order);
    ArrivalAt(outcomes, order);
    var ok, acc := Collect(outcomes, order);
    if !ok {
      ghost var k :| 0 <= k < |arrived| && !Mergeable(arrived[k]);
      NotAllMergeable(outcomes, arrived, k);
      return Err(Malformed);
    }
    AllMergeablePermutation(arrived, outcomes);
    ValidArrivals(outcomes, arrived);
    ConfidencesInUnit(arrived);
    MeanInUnit(acc.confidences);
    var locationList := SetToList(acc.allLocations);
    var partList := SetToList(acc.allParts);
    r := Ok(DamageResult(acc.allDamage, locationList, Mean(acc.confidences), true in acc.matches, partList));
  }

  lemma ValidArrivals(outcomes: seq<Analysis>, arrived: seq<Analysis>)
    requires multiset(arrived) == multiset(outcomes)
    requires forall j :: 0 <= j < |outcomes| ==> outcomes[j].Valid()
    ensures forall k :: 0 <= k < |arrived| ==> arrived[k].Valid()
  {
    forall k | 0 <= k < |arrived|
      ensures arrived[k].Valid()
    {
      assert arrived[k] in multiset(outcomes);
    }
  }

  /**
   * `analyze_multiple_images`: every image is analysed (lines 210-218),
   * then the analyses are merged in the order `order` says they completed.
   * An empty list of images raises; a successful analysis whose entries
   * cannot be merged makes the whole call raise; otherwise the result is
   * the merge of the analyses in arrival order.
   */
  method AnalyzeMultipleImages(api: VisionApi, decode: Decoder, parseFloat: FloatParser, images: seq<ImageInput>,
                               accidentDescription: Option<string>, expectedLocation: Option<string>, order: seq<nat>)
      returns (r: Result<DamageResult, MergeError>)
    requires IsOrder(order, |images|)
    ensures images == [] ==> r == Err(NoWorkers)
    ensures images != [] ==>
      (r.Ok? <==> AllMergeable(Outcomes(api, decode, parseFloat, images, accidentDescription, expectedLocation)))
    ensures r.Ok? ==> r.value.Valid()
    ensures r.Ok? ==>
      MergedFrom(r.value, Arrival(Outcomes(api, decode, parseFloat, images, accidentDescription, expectedLocation), order))
  {
    if |images| == 0 {
      return Err(NoWorkers);
    }
    ghost var expected := Outcomes(api, decode, parseFloat, images, accidentDescription, expectedLocation);
    var outcomes: seq<Analysis> := [];
    for i := 0 to |images|
      invariant outcomes == expected[..i]
      invariant forall j :: 0 <= j < i ==> outcomes[j].Valid()
    {
      var location := LocationFor(images[i].angleDescription, expectedLocation);
      var analysis := AnalyzeDamage(api, decode, parseFloat, images[i].bytes, accidentDescription, location);
      AnalysisShape(api(images[i].bytes, accidentDescription, location), decode, parseFloat);
      outcomes := outcomes + [analysis];
    }
    assert outcomes == expected;
    r := MergeAnalyses(outcomes, order);
  }

  // ---------------------------------------------------------------------
  // Properties of the merge

  /**
   * The order in which the threads finish does not matter: two merges of
   * the same analyses agree on the locations, the parts, the confidence and
   * the match, and hold the same damage items (in another order).
   */
  lemma OrderIndependent(r1: DamageResult, r2: DamageResult, os1: seq<Analysis>, os2: seq<Analysis>)
    requires multiset(os1) == multiset(os2)
    requires MergedFrom(r1, os1) && MergedFrom(r2, os2)
    ensures multiset(r1.detectedDamage) == multiset(r2.detectedDamage)
    ensures forall x :: x in r1.damageLocations <==> x in r2.damageLocations
    ensures forall x :: x in r1.likelyDamagedParts <==> x in r2.likelyDamagedParts
    ensures r1.confidence == r2.confidence
    ensures r1.matchesDescription == r2.matchesDescription
  {
    FlatMapPermutation(DamageOf, os1, os2);
    UnionOfPermutation(LocationsOf, os1, os2);
    UnionOfPermutation(PartsOf, os1, os2);
    FlatMapPermutation(ConfidenceOf, os1, os2);
    MeanPermutation(FlatMap(ConfidenceOf, os1), FlatMap(ConfidenceOf, os2));
    FlatMapPermutation(MatchOf, os1, os2);
    assert true in FlatMap(MatchOf, os1) <==> true in multiset(FlatMap(MatchOf, os1));
    assert true in FlatMap(MatchOf, os2) <==> true in multiset(FlatMap(MatchOf, os2));
  }

  lemma {:induction false} FailuresAddNothing(os: seq<Analysis>)
    requires forall k :: 0 <= k < |os| ==> !os[k].success
    ensures FlatMap(DamageOf, os) == [] && FlatMap(ConfidenceOf, os) == [] && FlatMap(MatchOf, os) == []
    ensures UnionOf(LocationsOf, os) == {} && UnionOf(PartsOf, os) == {}
  {
    if os != [] {
      FailuresAddNothing(os[..|os| - 1]);
    }
  }

  /**
   * When every image fails, the merge is not an error: it reports no
   * damage, no locations, no parts, confidence 0.0 and no match.
   */
  lemma AllFailed(r: DamageResult, os: seq<Analysis>)
    requires forall k :: 0 <= k < |os| ==> !os[k].success
    requires MergedFrom(r, os)
    ensures r.detectedDamage == [] && r.damageLocations == [] && r.likelyDamagedParts == []
    ensures r.confidence == 0.0 && !r.matchesDescription
  {
    FailuresAddNothing(os);
    EmptyWithoutMembers(r.damageLocations);
    EmptyWithoutMembers(r.likelyDamagedParts);
  }

  lemma EmptyWithoutMembers<T>(s: seq<T>)
    ensures (forall x :: x !in s) ==> s == []
  {
    if s != [] {
      assert s[0] in s;
    }
  }

  /**
   * The merged confidence is the mean over the successful analyses only:
   * a failed analysis neither adds its 0.0 nor counts in the denominator.
   */
  lemma {:induction false} ConfidencesOfSuccesses(os: seq<Analysis>)
    ensures |FlatMap(ConfidenceOf, os)| == |FlatMap(MatchOf, os)|
    ensures forall c :: c in FlatMap(ConfidenceOf, os) <==> exists k :: 0 <= k < |os| && os[k].success && os[k].confidence == c
  {
    if os != [] {
      var init, last := os[..|os| - 1], os[|os| - 1];
      ConfidencesOfSuccesses(init);
      assert forall k :: 0 <= k < |init| ==> init[k] == os[k];
      assert FlatMap(ConfidenceOf, os) == FlatMap(ConfidenceOf, init) + ConfidenceOf(last);
      assert FlatMap(MatchOf, os) == FlatMap(MatchOf, init) + MatchOf(last);
    }
  }

  /** Some successful analysis said the damage matches exactly when the merge says so. */
  lemma {:induction false} MatchMeaning(os: seq<Analysis>)
    ensures true in FlatMap(MatchOf, os) <==>
      exists k :: 0 <= k < |os| && os[k].success && Truthy(Get(os[k].data, "matches_description", Bool(false)))
  {
    if os != [] {
      var init := os[..|os| - 1];
      MatchMeaning(init);
      assert forall k :: 0 <= k < |init| ==> init[k] == os[k];
    }
  }
}
