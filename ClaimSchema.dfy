/**
 * The records of `app/schemas/Claim.py`: the document-type names, the data
 * extracted from each kind of document, and the results of the validators.
 *
 * Extracted records are built from a decoded JSON object the way pydantic
 * builds them (`ExtractedPolicyData(**data)`): a missing key or `null`
 * gives `None`, a string gives its text, any other value is a validation
 * error, and keys the record does not declare are ignored. `model_dump`
 * writes every field back, `None` as `null`.
 *
 * Result records keep the pydantic defaults as constructor defaults, and
 * `Valid()` states the `Field(ge=0.0, le=1.0)` bound on their confidence,
 * which pydantic enforces when a record is constructed.
 */
module ClaimSchema {
  import opened Basics
  import opened Json

  // ---------------------------------------------------------------------
  // Document types (`DocumentType`)

  const PolicyType := "policy"
  const ClaimFormType := "claim_form"
  const DrivingLicenseType := "driving_license"
  const AadhaarType := "aadhaar"
  const PanType := "pan"
  const RepairEstimateType := "repair_estimate"

  /** Aadhaar and PAN cards are both KYC documents. */
  predicate IsKycType(t: string) {
    t == AadhaarType || t == PanType
  }

  // ---------------------------------------------------------------------
  // Field conversion shared by the extracted records

  /** Whether pydantic accepts the value of `key` for an `Optional[str]` field. */
  predicate StrFieldOk(d: Object, key: string) {
    key !in d || d[key].Null? || d[key].Str?
  }

  /** The value pydantic stores for an `Optional[str]` field it accepts. */
  function StrField(d: Object, key: string): (r: Option<string>)
    ensures r.Some? <==> key in d && d[key].Str?
    ensures r.Some? ==> r.value == d[key].s
  {
    if key in d && d[key].Str? then Some(d[key].s) else None
  }

  /** How `model_dump` writes an `Optional[str]` field. */
  function StrValue(o: Option<string>): (v: Value)
    ensures o.None? <==> v.Null?
    ensures o.Some? ==> v == Str(o.value)
  {
    if o.Some? then Str(o.value) else Null
  }

  /** The text of a present, non-empty string field: Python's `if record.field:`. */
  predicate Present(o: Option<string>) {
    o.Some? && o.value != ""
  }

  // ---------------------------------------------------------------------
  // ExtractedPolicyData

  datatype PolicyData = PolicyData(
    policyNumber: Option<string> := None,
    policyStartDate: Option<string> := None,
    policyExpiryDate: Option<string> := None,
    insuredName: Option<string> := None,
    vehicleRegistration: Option<string> := None,
    chassisNumber: Option<string> := None,
    engineNumber: Option<string> := None,
    make: Option<string> := None,
    model: Option<string> := None,
    variant: Option<string> := None,
    color: Option<string> := None)

  const PolicyFields: set<string> := {
    "policy_number", "policy_start_date", "policy_expiry_date", "insured_name",
    "vehicle_registration", "chassis_number", "engine_number", "make", "model",
    "variant", "color"}

  /** `ExtractedPolicyData(**d)`, or `None` where pydantic raises. */
  function PolicyFromDict(d: Object): Option<PolicyData> {
    if forall k :: k in PolicyFields ==> StrFieldOk(d, k) then
      Some(PolicyData(
        StrField(d, "policy_number"), StrField(d, "policy_start_date"),
        StrField(d, "policy_expiry_date"), StrField(d, "insured_name"),
        StrField(d, "vehicle_registration"), StrField(d, "chassis_number"),
        StrField(d, "engine_number"), StrField(d, "make"), StrField(d, "model"),
        StrField(d, "variant"), StrField(d, "color")))
    else None
  }

  /** `ExtractedPolicyData.model_dump()` */
  function PolicyToDict(p: PolicyData): (d: Object)
    ensures d.Keys == PolicyFields
  {
    map[
      "policy_number" := StrValue(p.policyNumber),
      "policy_start_date" := StrValue(p.policyStartDate),
      "policy_expiry_date" := StrValue(p.policyExpiryDate),
      "insured_name" := StrValue(p.insuredName),
      "vehicle_registration" := StrValue(p.vehicleRegistration),
      "chassis_number" := StrValue(p.chassisNumber),
      "engine_number" := StrValue(p.engineNumber),
      "make" := StrValue(p.make),
      "model" := StrValue(p.model),
      "variant" := StrValue(p.variant),
      "color" := StrValue(p.color)]
  }

  /** A dumped policy record is read back unchanged. */
  lemma PolicyRoundTrip(p: PolicyData)
    ensures PolicyFromDict(PolicyToDict(p)) == Some(p)
  {
  }

  /** Without any of its keys every field takes its default, `None`. */
  lemma PolicyDefaults(d: Object)
    requires PolicyFields !! d.Keys
    ensures PolicyFromDict(d) == Some(PolicyData())
  {
  }

  /** A key the record does not declare is ignored, whatever its value. */
  lemma PolicyIgnoresExtraKeys(d: Object, key: string, v: Value)
    requires key !in PolicyFields
    ensures PolicyFromDict(d[key := v]) == PolicyFromDict(d)
  {
    assert forall k :: k in PolicyFields ==> (StrFieldOk(d[key := v], k) <==> StrFieldOk(d, k));
  }

  // ---------------------------------------------------------------------
  // ExtractedClaimFormData

  datatype ClaimFormData = ClaimFormData(
    claimNumber: Option<string> := None,
    accidentDate: Option<string> := None,
    claimSubmissionDate: Option<string> := None,
    accidentDescription: Option<string> := None,
    damageLocation: Option<string> := None,
    insuredName: Option<string> := None,
    vehicleRegistration: Option<string> := None)

  const ClaimFormFields: set<string> := {
    "claim_number", "accident_date", "claim_submission_date", "accident_description",
    "damage_location", "insured_name", "vehicle_registration"}

  /** `ExtractedClaimFormData(**d)`, or `None` where pydantic raises. */
  function ClaimFormFromDict(d: Object): Option<ClaimFormData> {
    if forall k :: k in ClaimFormFields ==> StrFieldOk(d, k) then
      Some(ClaimFormData(
        StrField(d, "claim_number"), StrField(d, "accident_date"),
        StrField(d, "claim_submission_date"), StrField(d, "accident_description"),
        StrField(d, "damage_location"), StrField(d, "insured_name"),
        StrField(d, "vehicle_registration")))
    else None
  }

  /** `ExtractedClaimFormData.model_dump()` */
  function ClaimFormToDict(c: ClaimFormData): (d: Object)
    ensures d.Keys == ClaimFormFields
  {
    map[
      "claim_number" := StrValue(c.claimNumber),
      "accident_date" := StrValue(c.accidentDate),
      "claim_submission_date" := StrValue(c.claimSubmissionDate),
      "accident_description" := StrValue(c.accidentDescription),
      "damage_location" := StrValue(c.damageLocation),
      "insured_name" := StrValue(c.insuredName),
      "vehicle_registration" := StrValue(c.vehicleRegistration)]
  }

  lemma ClaimFormRoundTrip(c: ClaimFormData)
    ensures ClaimFormFromDict(ClaimFormToDict(c)) == Some(c)
  {
  }

  /** Without any of its keys every field takes its default, `None`. */
  lemma ClaimFormDefaults(d: Object)
    requires ClaimFormFields !! d.Keys
    ensures ClaimFormFromDict(d) == Some(ClaimFormData())
  {
  }

  /** A key the record does not declare is ignored, whatever its value. */
  lemma ClaimFormIgnoresExtraKeys(d: Object, key: string, v: Value)
    requires key !in ClaimFormFields
    ensures ClaimFormFromDict(d[key := v]) == ClaimFormFromDict(d)
  {
    assert forall k :: k in ClaimFormFields ==> (StrFieldOk(d[key := v], k) <==> StrFieldOk(d, k));
  }

  // ---------------------------------------------------------------------
  // ExtractedLicenseData

  datatype LicenseData = LicenseData(
    licenseNumber: Option<string> := None,
    name: Option<string> := None,
    dateOfBirth: Option<string> := None,
    expiryDate: Option<string> := None,
    address: Option<string> := None)

  const LicenseFields: set<string> := {
    "license_number", "name", "date_of_birth", "expiry_date", "address"}

  /** `ExtractedLicenseData(**d)`, or `None` where pydantic raises. */
  function LicenseFromDict(d: Object): Option<LicenseData> {
    if forall k :: k in LicenseFields ==> StrFieldOk(d, k) then
      Some(LicenseData(
        StrField(d, "license_number"), StrField(d, "name"), StrField(d, "date_of_birth"),
        StrField(d, "expiry_date"), StrField(d, "address")))
    else None
  }

  /** `ExtractedLicenseData.model_dump()` */
  function LicenseToDict(l: LicenseData): (d: Object)
    ensures d.Keys == LicenseFields
  {
    map[
      "license_number" := StrValue(l.licenseNumber),
      "name" := StrValue(l.name),
      "date_of_birth" := StrValue(l.dateOfBirth),
      "expiry_date" := StrValue(l.expiryDate),
      "address" := StrValue(l.address)]
  }

  lemma LicenseRoundTrip(l: LicenseData)
    ensures LicenseFromDict(LicenseToDict(l)) == Some(l)
  {
  }

  /** Without any of its keys every field takes its default, `None`. */
  lemma LicenseDefaults(d: Object)
    requires LicenseFields !! d.Keys
    ensures LicenseFromDict(d) == Some(LicenseData())
  {
  }

  /** A key the record does not declare is ignored, whatever its value. */
  lemma LicenseIgnoresExtraKeys(d: Object, key: string, v: Value)
    requires key !in LicenseFields
    ensures LicenseFromDict(d[key := v]) == LicenseFromDict(d)
  {
    assert forall k :: k in LicenseFields ==> (StrFieldOk(d[key := v], k) <==> StrFieldOk(d, k));
  }

  // ---------------------------------------------------------------------
  // ExtractedKYCData

  datatype KycData = KycData(
    documentNumber: Option<string> := None,
    name: Option<string> := None,
    dateOfBirth: Option<string> := None,
    address: Option<string> := None,
    documentType: Option<string> := None)

  const KycFields: set<string> := {
    "document_number", "name", "date_of_birth", "address", "document_type"}

  /** `ExtractedKYCData(**d)`, or `None` where pydantic raises. */
  function KycFromDict(d: Object): Option<KycData> {
    if forall k :: k in KycFields ==> StrFieldOk(d, k) then
      Some(KycData(
        StrField(d, "document_number"), StrField(d, "name"), StrField(d, "date_of_birth"),
        StrField(d, "address"), StrField(d, "document_type")))
    else None
  }

  /** `ExtractedKYCData.model_dump()` */
  function KycToDict(k: KycData): (d: Object)
    ensures d.Keys == KycFields
  {
    map[
      "document_number" := StrValue(k.documentNumber),
      "name" := StrValue(k.name),
      "date_of_birth" := StrValue(k.dateOfBirth),
      "address" := StrValue(k.address),
      "document_type" := StrValue(k.documentType)]
  }

  lemma KycRoundTrip(k: KycData)
    ensures KycFromDict(KycToDict(k)) == Some(k)
  {
  }

  /** Without any of its keys every field takes its default, `None`. */
  lemma KycDefaults(d: Object)
    requires KycFields !! d.Keys
    ensures KycFromDict(d) == Some(KycData())
  {
  }

  /** A key the record does not declare is ignored, whatever its value. */
  lemma KycIgnoresExtraKeys(d: Object, key: string, v: Value)
    requires key !in KycFields
    ensures KycFromDict(d[key := v]) == KycFromDict(d)
  {
    assert forall k :: k in KycFields ==> (StrFieldOk(d[key := v], k) <==> StrFieldOk(d, k));
  }

  // ---------------------------------------------------------------------
  // ExtractedRepairEstimateData

  datatype RepairEstimateData = RepairEstimateData(
    estimateAmount: Option<real> := None,
    damagedParts: Option<seq<string>> := None,
    workshopName: Option<string> := None)

  predicate AllStr(items: seq<Value>) {
    forall i :: 0 <= i < |items| ==> items[i].Str?
  }

  function Texts(items: seq<Value>): (r: seq<string>)
    requires AllStr(items)
    ensures |r| == |items| && forall i :: 0 <= i < |items| ==> items[i] == Str(r[i])
  {
    seq(|items|, i requires 0 <= i < |items| => items[i].s)
  }

  function TextValues(ts: seq<string>): (r: seq<Value>)
    ensures AllStr(r) && Texts(r) == ts
  {
    seq(|ts|, i requires 0 <= i < |ts| => Str(ts[i]))
  }

  /** Whether pydantic accepts `d[key]` for an `Optional[float]` field (numbers only here). */
  predicate RealFieldOk(d: Object, key: string) {
    key !in d || d[key].Null? || d[key].Num?
  }

  /** Whether pydantic accepts `d[key]` for an `Optional[List[str]]` field. */
  predicate TextsFieldOk(d: Object, key: string) {
    key !in d || d[key].Null? || (d[key].List? && AllStr(d[key].items))
  }

  /** `ExtractedRepairEstimateData(**d)`, or `None` where pydantic raises. */
  function RepairEstimateFromDict(d: Object): Option<RepairEstimateData> {
    if RealFieldOk(d, "estimate_amount") && TextsFieldOk(d, "damaged_parts") && StrFieldOk(d, "workshop_name") then
      var amount := if "estimate_amount" in d && d["estimate_amount"].Num? then Some(d["estimate_amount"].x) else None;
      var parts := if "damaged_parts" in d && d["damaged_parts"].List? then Some(Texts(d["damaged_parts"].items)) else None;
      Some(RepairEstimateData(amount, parts, StrField(d, "workshop_name")))
    else None
  }

  /** `ExtractedRepairEstimateData.model_dump()` */
  function RepairEstimateToDict(e: RepairEstimateData): (d: Object)
    ensures d.Keys == {"estimate_amount", "damaged_parts", "workshop_name"}
  {
    map[
      "estimate_amount" := (if e.estimateAmount.Some? then Num(e.estimateAmount.value) else Null),
      "damaged_parts" := (if e.damagedParts.Some? then List(TextValues(e.damagedParts.value)) else Null),
      "workshop_name" := StrValue(e.workshopName)]
  }

  lemma RepairEstimateRoundTrip(e: RepairEstimateData)
    ensures RepairEstimateFromDict(RepairEstimateToDict(e)) == Some(e)
  {
  }

  /** Without any of its keys every field takes its default, `None`. */
  lemma RepairEstimateDefaults(d: Object)
    requires "estimate_amount" !in d && "damaged_parts" !in d && "workshop_name" !in d
    ensures RepairEstimateFromDict(d) == Some(RepairEstimateData())
  {
  }

  /** A key the record does not declare is ignored, whatever its value. */
  lemma RepairEstimateIgnoresExtraKeys(d: Object, key: string, v: Value)
    requires key !in {"estimate_amount", "damaged_parts", "workshop_name"}
    ensures RepairEstimateFromDict(d[key := v]) == RepairEstimateFromDict(d)
  {
  }

  // ---------------------------------------------------------------------
  // NameValidationResult

  /** The documents whose names are compared, labelled as in the messages. */
  datatype NameSource = PolicySource | ClaimFormSource | KycSource

  /** A `"<doc>: <name>"` entry of `matched_names`. */
  datatype NamedDoc = NamedDoc(source: NameSource, name: string)

  /** A `"<doc1> (<name1>) vs <doc2> (<name2>): <similarity>"` entry of `mismatches`. */
  datatype NameMismatch = NameMismatch(first: NamedDoc, second: NamedDoc, similarity: real)

  datatype NameMessage = InsufficientNames | AllNamesMatch | NameMismatchesFound(count: nat)

  datatype NameResult = NameResult(
    isValid: bool,
    confidence: real,
    matchedNames: seq<NamedDoc> := [],
    mismatches: Option<seq<NameMismatch>> := None,
    message: NameMessage)
  {
    predicate Valid() {
      InUnit(confidence)
    }
  }

  // ---------------------------------------------------------------------
  // VehicleValidationResult

  /** `"Registration mismatch: <policy> vs <claim>"`, with the normalised numbers. */
  datatype VehicleMismatch = RegistrationMismatch(policyRegistration: string, claimRegistration: string)

  datatype VehicleMessage = MissingVehicleData | VehicleMatches | VehicleMismatchesFound(count: nat)

  datatype VehicleResult = VehicleResult(
    isValid: bool,
    confidence: real,
    registrationMatch: Option<bool> := None,
    chassisMatch: Option<bool> := None,
    engineMatch: Option<bool> := None,
    makeModelMatch: Option<bool> := None,
    mismatches: Option<seq<VehicleMismatch>> := None,
    message: VehicleMessage)
  {
    predicate Valid() {
      InUnit(confidence)
    }
  }

  // ---------------------------------------------------------------------
  // DateValidationResult

  datatype DateMismatch =
    | PolicyStartMissing
    | PolicyExpiryMissing
    | AccidentDateMissing
    | SubmissionDateMissing
    | LicenseExpiryMissing
    | AccidentBeforePolicyStart(accident: Date, policyStart: Date)
    | AccidentAfterPolicyExpiry(accident: Date, policyExpiry: Date)
    | SubmissionBeforeAccident(submission: Date, accident: Date)
    | SubmissionInFuture(submission: Date)
    | LicenseExpiredBeforeAccident(licenseExpiry: Date, accident: Date)

  datatype DateMessage = AllDatesValid | DateIssuesFound(count: nat)

  datatype DateResult = DateResult(
    isValid: bool,
    confidence: real,
    policyDateCheck: Option<bool> := None,
    claimDateCheck: Option<bool> := None,
    licenseExpiryCheck: Option<bool> := None,
    mismatches: Option<seq<DateMismatch>> := None,
    message: DateMessage)
  {
    predicate Valid() {
      InUnit(confidence)
    }
  }

  // ---------------------------------------------------------------------
  // DamageDetectionResult: it has no `is_valid` field.

  datatype DamageResult = DamageResult(
    detectedDamage: seq<Object>,
    damageLocations: seq<string>,
    confidence: real,
    matchesDescription: bool,
    likelyDamagedParts: seq<string>,
    unlikelyDamagedParts: Option<seq<string>> := None)
  {
    predicate Valid() {
      InUnit(confidence)
    }
  }

  // ---------------------------------------------------------------------
  // ValidationSummary

  /** `"<validator> validation failed: <message>"` */
  datatype Issue = NameIssue(nameMessage: NameMessage) | VehicleIssue(vehicleMessage: VehicleMessage) | DateIssue(dateMessage: DateMessage)

  /** `"Damage in images may not match accident description"` */
  datatype Warning = DamageMismatchWarning

  datatype ValidationSummary = ValidationSummary(
    overallValid: bool,
    overallConfidence: real,
    nameValidation: NameResult,
    vehicleValidation: VehicleResult,
    dateValidation: DateResult,
    damageValidation: Option<DamageResult> := None,
    issues: seq<Issue> := [],
    warnings: seq<Warning> := [])
  {
    predicate Valid() {
      InUnit(overallConfidence)
      && nameValidation.Valid() && vehicleValidation.Valid() && dateValidation.Valid()
      && (damageValidation.Some? ==> damageValidation.value.Valid())
    }
  }

  // ---------------------------------------------------------------------
  // ExtractedDocumentData

  datatype ExtractedDocumentData = ExtractedDocumentData(
    documentType: string,
    rawText: string,
    extractedData: Object,
    confidence: real)
  {
    predicate Valid() {
      InUnit(confidence)
    }
  }
}
