# Claim validation engine: a Dafny model

This project models the part of the motor-insurance claim service that decides whether a claim's documents agree with each other.

- Documents (policy, claim form, driving licence, Aadhaar/PAN KYC card, repair estimate) are uploaded to a claim. A language model extracts a typed record from each one.
- Validating a claim picks one record per document slot. It then runs three cross-document checks:
  - names agree across policy, claim form and KYC;
  - the vehicle registration and make/model agree;
  - the dates are in a sensible order.
- It optionally merges a per-image vision analysis of the damage photos.
- It folds everything into a validation summary that is stored on the claim.

Modules, following the program's structure:

| module | models |
|---|---|
| `Basics` | `Option`/`Result`, sums, means and fractions of checks, `FlatMap`/`UnionOf` over sequences, calendar dates |
| `Text` | the string operations the source relies on: `strip`, `split`, `" ".join`, `lower`, `upper`, `replace(" ", "")` |
| `Json` | decoded JSON values and `dict.get` |
| `ClaimSchema` | the extracted-data records and result records of `app/schemas/Claim.py` |
| `Utilities` | `_serialize_data` and `create_response` |
| `DataExtraction` | code-fence stripping, confidence pop/clamp, typed-record building, failure shape, routing by document type |
| `ValidationService` | name normalisation and similarity, date parsing, `validate_names`, `validate_vehicle`, `validate_dates` |
| `VisionService` | the per-image analyser's success/failure contract and the merge in `analyze_multiple_images` |
| `ClaimValidationService` | the claim store, document upsert, image upload, slot selection, damage gating, summary and `validate_claim` |

Outside services become parameters of the model:

- `difflib.SequenceMatcher.ratio` is a function `Ratio` whose results lie in [0,1], its documented range.
- `datetime.strptime` is a per-format parser `Strptime`. `utcnow()` is a `today: Date` parameter.
- `json.loads` is a `Decoder`, and `float(x)` on a decoded value is a `FloatParser`.
- The language-model reply is an `Option<string>`; `None` stands for a failed request.
- The vision endpoint is a `VisionApi` from the image bytes and the two texts to a `VisionReply`: an HTTP status error, a transport failure, an empty choice list, or the reply text.
- The file system, as the image loop sees it, is a `FileReader` from a path to one of: no file there (`exists()` is false), a read that raises, or the file's bytes.
- The thread pool's completion order is `completionOrder(n)`, any permutation of `0..n-1`.

The claim store is a class `ClaimStore` whose map field `claims` the upload and validation methods update in place.

## Model

| member | source | states |
|---|---|---|
| Basics.CountTrueBounds | app/services/ValidationService.py:153 | the number of true checks is at most the number of checks, and equals it iff every check is true |
| Basics.TrueFraction | app/services/ValidationService.py:153 | `sum(checks) / len(checks)`, or 0.0 with no checks, always lies in [0,1] |
| Basics.TrueFractionOne | app/services/ValidationService.py:153-154 | the fraction of true checks is 1.0 iff at least one check ran and all are true |
| Basics.SumBounds | app/services/VisionService.py:232 | a sum of n values in [0,1] lies in [0,n] |
| Basics.MeanInUnit | app/services/VisionService.py:232 | the mean of values in [0,1] (0.0 when there are none) lies in [0,1] |
| Basics.SumAppend | app/services/ClaimValidationService.py:261 | the sum of a concatenation is the sum of the sums |
| Basics.SumPermutation | app/services/VisionService.py:221-232 | a sum does not depend on the order of its terms |
| Basics.MeanPermutation | app/services/VisionService.py:232 | an average confidence does not depend on arrival order |
| Basics.FlatMapAppend | app/services/VisionService.py:226 | extending by a concatenation of results is extending by each in turn |
| Basics.FlatMapPermutation | app/services/VisionService.py:221-226 | concatenating per-result lists in a different order gives a permutation of the same multiset |
| Basics.UnionOfMeaning | app/services/VisionService.py:227-228 | an element is in the union iff some result's list contains it |
| Basics.UnionOfPermutation | app/services/VisionService.py:227-228 | the accumulated location and part sets do not depend on arrival order |
| Basics.UnionOfIncluded | app/services/VisionService.py:227-228 | the union over one order is included in the union over any permutation of it |
| Basics.Range | app/services/VisionService.py:210-218 | definition: the image indices `0..n-1`, in order |
| Basics.NoDuplicatesAppend | app/services/ValidationService.py:186-199 | joining two duplicate-free lists with no common element stays duplicate-free |
| Basics.Dedup | app/services/ValidationService.py:110 | `list(set(xs))`: duplicate-free, with exactly the elements of `xs`, and no longer than `xs` |
| Basics.DateOrderTotal | app/services/ValidationService.py:204-213 | date comparison is a total order, and "not a <= b" is "b < a" |
| Text.TrimStart | app/services/ValidationService.py:22 | `lstrip()` never lengthens the text, and what it leaves does not start with whitespace |
| Text.TrimStartMeaning | app/services/ValidationService.py:22 | `lstrip()` removes exactly the leading whitespace: it leaves a suffix of the text, everything before that suffix is whitespace, and the suffix does not start with whitespace |
| Text.TrimEnd | app/services/ValidationService.py:22 | `rstrip()` leaves a prefix of the text that does not end with whitespace |
| Text.TrimEndMeaning | app/services/ValidationService.py:22 | `rstrip()` removes exactly the trailing whitespace: everything after the prefix it leaves is whitespace |
| Text.Strip | app/services/ValidationService.py:22 | `strip()` never lengthens a string and adds no characters |
| Text.StripMeaning | app/services/ValidationService.py:22 | `strip()` leaves a slice of the text with only whitespace before and after it and no whitespace at its own ends; it is empty iff the text is all whitespace |
| Text.TakeWord | app/services/ValidationService.py:22 | the first word is a prefix, and it is non-empty when the text starts with a non-space |
| Text.TakeWordIsWord | app/services/ValidationService.py:22 | the first word is a non-empty run of non-space characters |
| Text.Split | app/services/ValidationService.py:22 | `split()` gives no more words than the text has characters |
| Text.SplitWords | app/services/ValidationService.py:22 | every piece of `split()` is a word |
| Text.SplitLower | app/services/ValidationService.py:22 | splitting lower-case text gives lower-case words |
| Text.RemoveSpaces | app/services/ValidationService.py:134-135 | `replace(" ", "")` leaves no space and adds no character |
| Text.RemoveSpacesCounts | app/services/ValidationService.py:134-135 | `replace(" ", "")` keeps every other character exactly as often as it occurs, and no space |
| Text.RemoveSpacesLength | app/services/ValidationService.py:134-135 | `replace(" ", "")` shortens the text by its number of spaces |
| Text.RemoveSpacesAppend | app/services/ValidationService.py:134-135 | `replace(" ", "")` of a concatenation is the concatenation of the pieces' results, so the order of the other characters is kept |
| Text.RemoveSpacesDropsSpace | app/services/ValidationService.py:134-135 | a space between two pieces does not change `replace(" ", "")` |
| Text.TakeWordOfWord | app/services/ValidationService.py:22 | the first word of a word followed by a space or nothing is that word |
| Text.Join | app/services/ValidationService.py:22 | `" ".join(ws)` of a non-empty list has the words' characters plus one separator between each two |
| Text.SplitJoin | app/services/ValidationService.py:22 | `" ".join(ws).split() == ws` for a list of words |
| Text.JoinEnds | app/services/ValidationService.py:22 | joining words gives an empty text only for no words, and a joined text neither starts nor ends with a space |
| Text.StripJoin | app/services/ValidationService.py:22 | joined words are already stripped |
| Text.JoinSingleSpaced | app/services/ValidationService.py:22 | joined words are separated by exactly one space |
| Text.JoinLower | app/services/ValidationService.py:22 | joining lower-case words gives lower-case text |
| Text.Lower | app/services/ValidationService.py:22 | `lower()` keeps the length, gives lower-case text, and leaves lower-case text unchanged |
| Text.Upper | app/services/ValidationService.py:135 | `upper()` keeps the length, gives upper-case text, and leaves upper-case text unchanged |
| Text.SplitTrailingSpace | app/services/ValidationService.py:22 | trailing whitespace does not change `split()` |
| Text.SplitTrimEnd | app/services/ValidationService.py:22 | stripping the right end does not change `split()` |
| Text.SplitStrip | app/services/ValidationService.py:22 | `s.strip().split() == s.split()` |
| Text.BeforeIsFirst | app/services/DataExtraction.py:63 | `split(sep)[1]` of a fenced reply ends at the first separator: no separator starts before the cut, and either the separator does not occur and all the text is kept, or it occurs right at the cut |
| Text.BeforeAt | app/services/DataExtraction.py:63 | when the separator first occurs at `p`, the piece is the text up to `p` |
| Text.OccursAtHead | app/services/DataExtraction.py:63 | an occurrence in the tail of a text is an occurrence one position later in the whole text |
| Text.BeforeHasNoSeparator | app/services/DataExtraction.py:63 | the text before the first separator does not contain the separator and is a prefix of the input |
| Text.BeforeOfSeparated | app/services/DataExtraction.py:63 | splitting `prefix + sep + rest` yields `prefix` when `prefix` shares no character with `sep` |
| Json.Get | app/services/VisionService.py:109 | definition of `d.get(key, default)`: the stored value when the key is present, the default otherwise |
| Json.Truthy | app/services/VisionService.py:233 | `bool(v)` behind `any(matches)` is false for exactly `None`, `False`, `0`, `""`, `[]` and `{}` |
| Utilities.SerializeData | app/helpers/Utilities.py:65-78 | an ObjectId becomes its hex string; a dict keeps its keys, with each value serialised; a list keeps its length, with each item serialised; any other value is unchanged |
| Utilities.SerializeRemovesObjectIds | app/helpers/Utilities.py:72-78 | no ObjectId remains anywhere in the output |
| Utilities.SerializeKeepsPlainValues | app/helpers/Utilities.py:72-78 | a value with no ObjectId is returned unchanged |
| Utilities.SerializeIdempotent | app/helpers/Utilities.py:72-78 | serialising twice is serialising once |
| Utilities.CreateResponse | app/helpers/Utilities.py:81-95 | failure iff `success` is false, carrying the error text or "An error occurred" when it is empty; otherwise a successful response whose data is the serialised input and holds no ObjectId |
| ClaimSchema.StrField | app/schemas/Claim.py:16-50 | definition: an optional string field is set iff the key holds a string |
| ClaimSchema.StrValue | app/schemas/Claim.py:16-50 | definition: an unset optional field dumps as null, a set one as its string |
| ClaimSchema.PolicyToDict | app/schemas/Claim.py:16-27 | a dumped policy record has exactly the eleven policy fields |
| ClaimSchema.PolicyRoundTrip | app/schemas/Claim.py:16-27 | building a policy record from its dump gives the record back |
| ClaimSchema.PolicyDefaults | app/schemas/Claim.py:16-27 | with none of its fields present, every policy field defaults to None |
| ClaimSchema.PolicyIgnoresExtraKeys | app/schemas/Claim.py:16-27 | keys that are not policy fields do not affect the record |
| ClaimSchema.ClaimFormToDict | app/schemas/Claim.py:29-36 | a dumped claim form has exactly its seven fields |
| ClaimSchema.ClaimFormRoundTrip | app/schemas/Claim.py:29-36 | building a claim form from its dump gives it back |
| ClaimSchema.ClaimFormDefaults | app/schemas/Claim.py:29-36 | every claim-form field defaults to None |
| ClaimSchema.ClaimFormIgnoresExtraKeys | app/schemas/Claim.py:29-36 | unknown keys do not affect a claim form |
| ClaimSchema.LicenseToDict | app/schemas/Claim.py:38-43 | a dumped licence has exactly its five fields |
| ClaimSchema.LicenseRoundTrip | app/schemas/Claim.py:38-43 | building a licence from its dump gives it back |
| ClaimSchema.LicenseDefaults | app/schemas/Claim.py:38-43 | every licence field defaults to None |
| ClaimSchema.LicenseIgnoresExtraKeys | app/schemas/Claim.py:38-43 | unknown keys do not affect a licence |
| ClaimSchema.KycToDict | app/schemas/Claim.py:45-50 | a dumped KYC record has exactly its five fields |
| ClaimSchema.KycRoundTrip | app/schemas/Claim.py:45-50 | building a KYC record from its dump gives it back |
| ClaimSchema.KycDefaults | app/schemas/Claim.py:45-50 | every KYC field defaults to None |
| ClaimSchema.KycIgnoresExtraKeys | app/schemas/Claim.py:45-50 | unknown keys do not affect a KYC record |
| ClaimSchema.Texts | app/schemas/Claim.py:54 | a list of JSON strings read as `List[str]` keeps length and order |
| ClaimSchema.TextValues | app/schemas/Claim.py:54 | dumping a string list and reading it back gives the list |
| ClaimSchema.RepairEstimateToDict | app/schemas/Claim.py:52-55 | a dumped repair estimate has exactly its three fields |
| ClaimSchema.RepairEstimateRoundTrip | app/schemas/Claim.py:52-55 | building a repair estimate from its dump gives it back |
| ClaimSchema.RepairEstimateDefaults | app/schemas/Claim.py:52-55 | every repair-estimate field defaults to None |
| ClaimSchema.RepairEstimateIgnoresExtraKeys | app/schemas/Claim.py:52-55 | unknown keys do not affect a repair estimate |
| DataExtraction.StripCodeFence | app/services/DataExtraction.py:62-66 | a reply that does not start with a fence is unchanged |
| DataExtraction.FenceRemoved | app/services/DataExtraction.py:62-66 | after stripping a fenced reply, no fence remains |
| DataExtraction.CleanContent | app/services/DataExtraction.py:59-66 | the step-by-step rewriting of the reply gives exactly the cleaned reply: stripped, and the text after an opening fence up to the next one, without a leading `json` tag |
| DataExtraction.StripCodeFenceIdempotent | app/services/DataExtraction.py:62-66 | stripping fences twice is stripping once |
| DataExtraction.FencedReply | app/services/DataExtraction.py:62-66 | a reply fenced as "```json body```" or "```body```", followed by anything, yields the stripped body, provided no fence occurs inside the tag and body and the body does not end in a backtick (either would move the closing fence earlier) |
| DataExtraction.NoFenceBefore | app/services/DataExtraction.py:63 | with no fence inside the tagged body and no backtick at its end, `split("```")` cannot cut before the closing fence |
| DataExtraction.UnclosedFence | app/services/DataExtraction.py:62-66 | a reply that opens a fence, optionally tagged `json`, and never closes it yields the rest of the text stripped |
| DataExtraction.Clamp | app/services/DataExtraction.py:72 | the clamped confidence lies in [0,1], keeps values already there, and maps values below to 0 and above to 1 |
| DataExtraction.PopConfidence | app/services/DataExtraction.py:70 | definition of `data.pop("confidence", 0.0)` returns the stored confidence or 0.0, and leaves data without that key |
| DataExtraction.DumpRecord | app/services/DataExtraction.py:74-78 | a built record dumps to exactly its kind's fields |
| DataExtraction.NoConfidenceField | app/services/DataExtraction.py:70-76 | no record kind has a "confidence" field |
| DataExtraction.Failure | app/services/DataExtraction.py:79-85 | definition: a failed extraction has `success` false, its error, empty data and confidence 0.0 |
| DataExtraction.FailureShape | app/services/DataExtraction.py:79-85 | every extraction result is well formed, and every failure path has an error, empty data and confidence 0.0 |
| DataExtraction.SuccessShape | app/services/DataExtraction.py:68-78 | a successful extraction has no error, exactly its kind's fields, and no "confidence" key |
| DataExtraction.Succeeds | app/services/DataExtraction.py:68-85 | extraction succeeds iff the reply decodes to a dict whose confidence converts to a float and whose remaining keys build the typed record |
| DataExtraction.SuccessConfidence | app/services/DataExtraction.py:70-72 | a successful confidence is the clamped float of the stored one; a missing or null one gives 0.0 |
| DataExtraction.KycTypeOverridden | app/services/DataExtraction.py:214 | a KYC extraction reports the requested document type |
| DataExtraction.ExtractRecord | app/services/DataExtraction.py:33-85 | the per-kind extraction returns exactly the specified result for the reply |
| DataExtraction.RoutingMeaning | app/services/DataExtraction.py:278-296 | aadhaar and pan route to KYC extraction; exactly the six document types are routed |
| DataExtraction.ExtractData | app/services/DataExtraction.py:278-296 | an unknown type fails with "Unknown document type"; a known type gives its kind's extraction |
| ValidationService.NormalizeName | app/services/ValidationService.py:18-22 | the normalised name is lower-case and single-spaced, has the words of the lower-cased name, and is empty iff the name has no words |
| ValidationService.NormalizedWords | app/services/ValidationService.py:22 | `" ".join(low.strip().split())` of lower-case text is lower-case, single-spaced, has the words of the text, and is empty iff there are none |
| ValidationService.NormalizeIdempotent | app/services/ValidationService.py:18-22 | normalising twice is normalising once |
| ValidationService.NameSimilarity | app/services/ValidationService.py:25-31 | the similarity lies in [0,1] and is 0.0 when either name is empty |
| ValidationService.SimilarityOfNormalized | app/services/ValidationService.py:25-31 | for names whose normal forms are non-empty, the similarity is that of their normal forms |
| ValidationService.BlankNames | app/services/ValidationService.py:25-31 | whitespace-only names are truthy and reach the ratio of two empty normal forms, while their normal forms score 0.0, so the two differ there |
| ValidationService.SpacesAreBlank | app/services/ValidationService.py:19-22 | a run of spaces normalises to the empty name |
| ValidationService.FirstParseIsFirst | app/services/ValidationService.py:49-55 | trying formats in order gives None iff every format fails; otherwise it gives the result of the first format that succeeds |
| ValidationService.ParseDate | app/services/ValidationService.py:34-55 | an empty string gives None; otherwise the stripped string is parsed by the first of the six formats that accepts it, and None means all six fail |
| ValidationService.PresentNames | app/services/ValidationService.py:69-78 | at most three names (licence excluded), all non-empty |
| ValidationService.Row | app/services/ValidationService.py:94 | the inner loop yields `j - i - 1` pairs |
| ValidationService.RowElements | app/services/ValidationService.py:94 | the inner loop pairs `i` with each later index in order |
| ValidationService.AllPairs | app/services/ValidationService.py:93-94 | every enumerated pair is an increasing pair of valid indices |
| ValidationService.PairsBeforeIn | app/services/ValidationService.py:93-94 | the pairs enumerated by the first `i` outer iterations are valid |
| ValidationService.InRow | app/services/ValidationService.py:94 | the inner loop for `i` visits `(a, b)` iff `a == i` and `i < b < n` |
| ValidationService.PairsBeforeExact | app/services/ValidationService.py:93-94 | `(a, b)` is enumerated in the first `i` outer iterations iff `a < i` and `a < b < n` |
| ValidationService.PairsBeforeCount | app/services/ValidationService.py:93-94 | the first `i` outer iterations enumerate `i(2n-i-1)/2` pairs |
| ValidationService.AllPairsExact | app/services/ValidationService.py:93-94 | exactly the pairs `a < b < n` are compared, `n(n-1)/2` of them |
| ValidationService.PairCounts | app/services/ValidationService.py:93-94 | two names give one pair; three names give the pairs (0,1), (0,2), (1,2) in that order |
| ValidationService.Sims | app/services/ValidationService.py:95-96 | one similarity per compared pair |
| ValidationService.SimsElements | app/services/ValidationService.py:95-96 | the k-th similarity is that of the k-th pair, and all lie in [0,1] |
| ValidationService.ClassificationStep | app/services/ValidationService.py:95-102 | comparing one more pair appends its similarity, appends both names iff it is >= 0.85, and appends one mismatch iff it is < 0.7 |
| ValidationService.MatchedMeaning | app/services/ValidationService.py:98-100 | a name is matched iff it belongs to some pair with similarity >= 0.85 |
| ValidationService.MismatchesMembers | app/services/ValidationService.py:101-102 | a mismatch is recorded iff it is the entry of a pair with similarity below 0.7 |
| ValidationService.MismatchesCount | app/services/ValidationService.py:101-102 | there are no mismatches iff every pair reaches 0.7, and never more mismatches than pairs |
| ValidationService.MismatchesMeaning | app/services/ValidationService.py:101-102 | a mismatch is recorded exactly for each pair with similarity < 0.7; there are none iff every pair reaches 0.7 |
| ValidationService.ClassificationAppend | app/services/ValidationService.py:93-102 | classifying two runs of pairs is classifying each run and concatenating |
| ValidationService.NameVerdictMeaning | app/services/ValidationService.py:80-113 | fewer than two names give invalid, 0.0, no matches and no mismatches; otherwise confidence is the mean similarity, valid iff the mean is >= 0.8 and every pair reaches 0.7, mismatches are None iff there are none, and matched names are duplicate-free and are exactly the names of high-similarity pairs |
| ValidationService.ScorePairs | app/services/ValidationService.py:88-102 | the nested loop computes exactly the similarities, matched names and mismatches of all pairs in order |
| ValidationService.ScoreRow | app/services/ValidationService.py:93-102 | the inner loop appends to each accumulator exactly the contributions of the pairs of name `i` with every later name, in order |
| ValidationService.ScorePair | app/services/ValidationService.py:94-102 | one pair extends the similarities by its score, the matched names by both entries at 0.85 or above, and the mismatches by one entry below 0.70 |
| ValidationService.RowClassification | app/services/ValidationService.py:93-102 | the row of pairs up to `(i, j)` classifies as the shorter row followed by that pair alone |
| ValidationService.NameVerdictOfScan | app/services/ValidationService.py:104-113 | the verdict built from the scanned lists is the name verdict |
| ValidationService.ValidateNames | app/services/ValidationService.py:57-113 | the result is the name verdict over the policy, claim-form and KYC names, never the licence name |
| ValidationService.RegistrationKey | app/services/ValidationService.py:134-135 | a registration key has no plain spaces, is upper-case, and is shorter than the registration by its number of spaces |
| ValidationService.RegistrationKeyIdempotent | app/services/ValidationService.py:134-135 | a registration key is its own key |
| ValidationService.RegistrationKeyIgnoresSpaces | app/services/ValidationService.py:134-135 | a space anywhere in a registration does not change its key, so registrations that differ only in spacing match |
| ValidationService.RemoveSpacesOfSpaceless | app/services/ValidationService.py:134-135 | removing spaces leaves a space-free string unchanged |
| ValidationService.VehicleChecksVerdict | app/services/ValidationService.py:131-154 | a registration mismatch keeps the confidence below 1; otherwise the confidence is 1 if any check ran and 0 if none did |
| ValidationService.ValidateVehicle | app/services/ValidationService.py:115-165 | a missing record gives invalid, 0.0 and no flags; otherwise the registration flag is set iff both registrations are present, true iff their space-free upper-case forms agree; make/model is true iff make and model are present; chassis and engine stay None; confidence is the fraction of true checks; valid iff no mismatch and at least one check ran |
| ValidationService.MissingDatesMeaning | app/services/ValidationService.py:186-199 | a "missing" message appears iff its record is present and the raw field is empty; the list is duplicate-free |
| ValidationService.FlagsMeaning | app/services/ValidationService.py:186-199 | the five conditional messages appear exactly when their conditions hold, without duplicates |
| ValidationService.PolicyFailure | app/services/ValidationService.py:207-213 | a failing policy-period rule adds exactly one message, and a passing or skipped one adds none |
| ValidationService.ClaimFailure | app/services/ValidationService.py:224-230 | a failing claim-timeline rule adds exactly one message |
| ValidationService.LicenseFailure | app/services/ValidationService.py:241-244 | a failing licence rule adds exactly one message |
| ValidationService.RuleFailuresMeaning | app/services/ValidationService.py:201-247 | the rule messages are as many as the failed checks, and none is a "missing" message |
| ValidationService.CountOutcomes | app/services/ValidationService.py:201-247 | the number of false checks is the number of failed rules |
| ValidationService.CountTrueAppend | app/services/ValidationService.py:249 | counting true checks distributes over concatenation |
| ValidationService.ParseDates | app/services/ValidationService.py:178-182 | each date is parsed only when its record and raw field are present |
| ValidationService.ReportMissingDates | app/services/ValidationService.py:186-199 | the loop reports exactly the missing-date messages, in source order |
| ValidationService.ReportMissingPolicyDates | app/services/ValidationService.py:187-191 | a policy appends one message for each of its start and expiry dates that is empty, start first; no policy appends nothing |
| ValidationService.ReportMissingClaimDates | app/services/ValidationService.py:193-197 | a claim form appends one message for each of its accident and submission dates that is empty, accident first; no form appends nothing |
| ValidationService.CheckPolicyPeriod | app/services/ValidationService.py:201-216 | the rule runs iff all three dates parsed; the flag is false when the policy is present but a date is unparsed; one check and at most one message are appended |
| ValidationService.CheckClaimTimeline | app/services/ValidationService.py:218-233 | the rule runs iff the accident and submission dates parsed, checking accident <= submission <= today |
| ValidationService.CheckLicenseExpiry | app/services/ValidationService.py:235-247 | the rule runs iff the accident and expiry dates parsed, checking accident <= expiry |
| ValidationService.RunDateRules | app/services/ValidationService.py:201-247 | the three rule blocks, in order, record exactly the outcomes of the rules that ran and append exactly their failure messages; the policy flag is `False` for a policy whose dates did not all parse |
| ValidationService.DateVerdictMeaning | app/services/ValidationService.py:201-261 | the result is well formed; the policy flag is None iff no policy and the rule did not run; the claim flag is None iff that rule did not run; mismatches are the missing messages then the rule messages, None when empty; confidence is the fraction of passed rules; valid iff nothing is missing, at least one rule ran and all passed, and then confidence is 1 |
| ValidationService.ValidateDates | app/services/ValidationService.py:167-261 | the result is the date verdict over the parsed dates, the missing-date messages and whether a policy is present |
| VisionService.AnalysisShape | app/services/VisionService.py:120-146 | every analyser outcome is well formed, and every failure carries the fallback data with confidence 0.0 |
| VisionService.JudgeShape | app/services/VisionService.py:107-146 | judging a decoded reply gives a well-formed outcome, with the fallback data on failure |
| VisionService.AnalysisSucceeds | app/services/VisionService.py:98-118 | the analysis succeeds iff a choice arrived, its cleaned text decodes to a dict and its confidence converts to a float; the data is then the decoded dict, unpopped, and the confidence is its clamped value |
| VisionService.LocationFor | app/services/VisionService.py:215 | an image's own angle description wins, and the expected location is used when it is missing or empty |
| VisionService.AnalyzeDamage | app/services/VisionService.py:27-146 | the analyser's result is the specified outcome of the endpoint's reply |
| VisionService.DamageItems | app/services/VisionService.py:226 | `all_damage.extend(v)` accepts only a list, an empty string or an empty dict, and the last two add nothing |
| VisionService.DamageItemsMeaning | app/services/VisionService.py:226 | for each kind of JSON value, exactly when `extend` succeeds: a list of dicts adds its items in order; `""` and `{}` add nothing; a non-empty string or dict, `None`, a boolean or a number raises |
| VisionService.Labels | app/services/VisionService.py:227-228 | `set.update(v)` succeeds exactly for a string, a dict, or a list of strings |
| VisionService.LabelsMeaning | app/services/VisionService.py:227-228 | what `set.update(v)` adds: a list's strings, a string's characters, a dict's keys; any other value raises |
| VisionService.DictItemsMeaning | app/services/VisionService.py:226 | a list extends `all_damage` iff all its items are dicts, and then item by item |
| VisionService.StrItemsMeaning | app/services/VisionService.py:227-228 | a list updates a string set iff all its items are strings, adding exactly those strings |
| VisionService.CharsMeaning | app/services/VisionService.py:227-228 | updating a set with a string adds its characters |
| VisionService.Outcomes | app/services/VisionService.py:210-218 | one outcome per image |
| VisionService.OrderBounded | app/services/VisionService.py:221 | every completion index names an image |
| VisionService.ArrivalAt | app/services/VisionService.py:221-222 | the k-th arriving result is the outcome of the k-th completed image |
| VisionService.ArrivalAtBounded | app/services/VisionService.py:221-222 | the same, for any in-range index sequence |
| VisionService.PickRange | app/services/VisionService.py:221-222 | arrival in submission order is the outcome list itself |
| VisionService.ArrivalPermutation | app/services/VisionService.py:221-222 | the arriving results are a permutation of the outcomes |
| VisionService.ConfidencesInUnit | app/services/VisionService.py:229 | every collected confidence lies in [0,1] |
| VisionService.SetToList | app/services/VisionService.py:237-240 | `list(s)` is duplicate-free and has exactly the elements of `s` |
| VisionService.NotAllMergeable | app/services/VisionService.py:224-230 | a malformed arriving success makes the whole image set unmergeable |
| VisionService.AllMergeablePermutation | app/services/VisionService.py:224-230 | mergeability does not depend on arrival order |
| VisionService.Absorb | app/services/VisionService.py:224-230 | a failure adds nothing; a success extends the damage, locations, parts, confidences and matches by its own contribution, or raises when malformed |
| VisionService.AbsorbNext | app/services/VisionService.py:221-230 | taking the next arrived result succeeds iff it is mergeable, and then the accumulators are those of the arrivals so far including it |
| VisionService.Collect | app/services/VisionService.py:220-230 | the collection loop succeeds iff every arrived result is mergeable, and then yields the accumulators of the whole arrival sequence |
| VisionService.MergeAnalyses | app/services/VisionService.py:201-241 | the merge succeeds iff every success is well formed; the damage is the concatenation in arrival order, locations and parts are duplicate-free unions, confidence is the mean of the successes' confidences, and the match flag is true iff some success matched |
| VisionService.AnalyzeMultipleImages | app/services/VisionService.py:184-241 | an empty image list raises; otherwise the merged result of the per-image outcomes, each image analysed with its own location |
| VisionService.OrderIndependent | app/services/VisionService.py:221-241 | two arrival orders give the same damage multiset, the same location and part sets, the same confidence and the same match flag |
| VisionService.FailuresAddNothing | app/services/VisionService.py:224 | failed results contribute nothing to any aggregate |
| VisionService.AllFailed | app/services/VisionService.py:232-233 | with no success the result is empty, with confidence 0.0 and no match |
| VisionService.ConfidencesOfSuccesses | app/services/VisionService.py:229 | the collected confidences are exactly the successes' confidences, one per success |
| VisionService.MatchMeaning | app/services/VisionService.py:230-233 | a match is collected iff some success's "matches_description" is truthy |
| ClaimValidationService.FirstOfType | app/services/ClaimValidationService.py:82-86 | the index found is the first document of the type, or None when there is none |
| ClaimValidationService.UpsertMeaning | app/services/ClaimValidationService.py:81-91 | with a document of the type, the first one is replaced and every other entry and the length are unchanged; without one, the document is appended |
| ClaimValidationService.FirstOfTypeUnique | app/services/ClaimValidationService.py:82-86 | the first index of a type is the one before which no document has it |
| ClaimValidationService.UpsertIdempotent | app/services/ClaimValidationService.py:81-91 | upserting the same document twice is upserting once |
| ClaimValidationService.Upsert | app/services/ClaimValidationService.py:81-91 | the loop with `break` computes the specified upsert |
| ClaimValidationService.UploadDocument | app/services/ClaimValidationService.py:41-107 | a failed extraction or a missing claim returns an error and leaves the store unchanged; otherwise the claim's documents are upserted and the stored record is returned |
| ClaimValidationService.UploadedConfidence | app/services/ClaimValidationService.py:77 | an uploaded document's confidence lies in [0,1], and a failed extraction carries an error |
| ClaimValidationService.UploadImage | app/services/ClaimValidationService.py:109-160 | a missing claim returns an error and leaves the store unchanged; otherwise the image record is appended to that claim alone |
| ClaimValidationService.LastOfSlot | app/services/ClaimValidationService.py:185-196 | the document filling a slot is the last of that slot's types |
| ClaimValidationService.SlotsSucceed | app/services/ClaimValidationService.py:185-196 | slot selection succeeds iff every slotted document's data builds its record |
| ClaimValidationService.PolicySlotLastWins | app/services/ClaimValidationService.py:189-190 | the policy slot holds the record of the last policy document |
| ClaimValidationService.ClaimFormSlotLastWins | app/services/ClaimValidationService.py:191-192 | the claim-form slot holds the record of the last claim form |
| ClaimValidationService.LicenseSlotLastWins | app/services/ClaimValidationService.py:193-194 | the licence slot holds the record of the last licence |
| ClaimValidationService.KycSlotLastWins | app/services/ClaimValidationService.py:195-196 | the single KYC slot holds the record of the last Aadhaar or PAN document |
| ClaimValidationService.SlotsFailureSticks | app/services/ClaimValidationService.py:185-196 | once a document fails to build its record, selection fails |
| ClaimValidationService.IgnoredDocument | app/services/ClaimValidationService.py:185-196 | a repair estimate or unknown type changes no slot |
| ClaimValidationService.SelectSlots | app/services/ClaimValidationService.py:179-196 | the loop computes the specified slot selection |
| ClaimValidationService.CollectImages | app/services/ClaimValidationService.py:224-241 | the loop computes the specified collection: images without a path or without a file are skipped, and a read that raises abandons the collection |
| ClaimValidationService.CollectedImagesMeaning | app/services/ClaimValidationService.py:222-241 | collecting fails iff some image with a path has a read that raises; otherwise there are no more inputs than images |
| ClaimValidationService.CollectedImageOrigin | app/services/ClaimValidationService.py:226-241 | every collected input holds the bytes of one image's file and that image's angle |
| ClaimValidationService.CollectedFailureSticks | app/services/ClaimValidationService.py:222-241 | once a read has raised, collecting the whole list fails |
| ClaimValidationService.AnalyzeClaimDamage | app/services/ClaimValidationService.py:218-253 | damage is None unless there are images, a claim form, no read that raises and at least one collected image; otherwise it is present iff the merge succeeds, and then it is well formed and merged from the arriving outcomes |
| ClaimValidationService.SummaryMeaning | app/services/ClaimValidationService.py:255-285 | overall validity is the AND of name, vehicle and date validity, and damage never changes it; confidence is the mean of the three or four confidences; one issue per failing validator; a warning iff damage is present and does not match |
| ClaimValidationService.SumOfThree | app/services/ClaimValidationService.py:261 | the sum of three confidences is their total |
| ClaimValidationService.Summarize | app/services/ClaimValidationService.py:255-285 | the method builds the specified summary |
| ClaimValidationService.ValidateClaim | app/services/ClaimValidationService.py:162-305 | a missing claim, no documents, or a document whose data does not build its record returns an error and leaves the store unchanged; otherwise the summary combines the name, vehicle, date and damage verdicts over the selected slots, and the claim is stored with it and status "validated"; it succeeds whenever the claim exists, has documents and every document builds its record |

## Left out

- The language-model and vision HTTP calls, their prompts, OCR and PDF rasterisation (app/helpers/OCR.py). The replies are parameters.
- `json.loads`, `float(x)`, `strptime` and `SequenceMatcher.ratio` are parameters; their internals are not modelled.
- The thread pool in `analyze_multiple_images` and its worker cap `min(n, 5)`. Only the completion order matters to the result, and it is a parameter.
- Confidences are exact reals. Floating-point rounding, NaN and infinities from `float()` are not modelled.
- Message strings (mismatch texts, error texts, `str(e)`, the percentage format) are tagged values carrying the same data, not formatted text.
- Timestamps (`utcnow().isoformat()`) and the uuid file name of a stored image are parameters of the upload methods. Writing the image file is not modelled.
- The `print` of a vision validation error (app/services/ClaimValidationService.py:252) and the `UpdatedOn` timestamp that `update_claim` writes (app/models/Claim.py:38) when a validation summary is stored (app/services/ClaimValidationService.py:287-290) are not modelled: the model stores the summary and status only.
- MongoDB access and the `create_claim`, `get_claim` and `get_all_claims` operations are plain database I/O. The store is an in-memory map of claims.
- The FastAPI controllers, middleware, Swagger configuration and start-up code.
- `analyze_damage` only runs the analyser on an event loop, so `AnalyzeDamage` stands for both.
- ValidationService.NormalizeName: case mapping is ASCII only. Python's `lower()` maps every Unicode letter, so "JOSÉ" and "josé" normalise to the same name in the source but not in the model, and non-ASCII letters keep their case here.
- ValidationService.ValidateVehicle: registrations are upper-cased on ASCII letters only. Python's `upper()` also maps non-ASCII letters, and some of them to longer text (`'ß'.upper()` is "SS"), which the length-preserving model cannot produce.
- Text.Lower: ASCII letters only; every other character is left as it is, where Python's `lower()` would map non-ASCII letters too.
- Text.Upper: ASCII letters only; every other character is left as it is, where Python's `upper()` would map non-ASCII letters too, sometimes to more than one character.
- ValidationService.ValidateNames: `list(set(matched_names))` (app/services/ValidationService.py:110) has a hash-dependent order; the model keeps first occurrences, so the order of `matchedNames` in the result, and in the summary that ClaimValidationService.ValidateClaim stores, is a choice of the model; only the elements and the absence of duplicates are what the program gives.
- ValidationService.ValidateNames: this takes `licenseName` and ignores it, as the source does with `license_name`. The only caller passes None for it.
- ValidationService.ParseDate: time of day is not modelled. A parsed date is a calendar date, and "submission <= now" is compared against today's date, which gives the same answer for midnight timestamps.
- VisionService.MergeAnalyses: the model rejects a malformed success when it arrives. The source raises either inside `extend`/`update` (a value that is not iterable, or not hashable) or when it builds the `DamageDetectionResult` (an item of the wrong type). In every case the caller ends up with no damage result.
- VisionService.MergeAnalyses: `list(set)` has an unspecified order. The model promises only a duplicate-free list with the right elements.
- VisionService.MergeAnalyses: a missing "confidence" in a success cannot happen, because the analyser always sets it. The source's 0.5 fallback is therefore not modelled.
- Pydantic's lax coercions are not modelled. A numeric string for `estimate_amount`, or a boolean for it, is rejected rather than converted to a float. A string field accepts only a JSON string or null.
- Extra keys in a record's data are ignored, as pydantic does by default.
