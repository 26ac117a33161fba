/**
 * `ClaimValidationService`: the bookkeeping of a claim's documents and
 * images, and the orchestration of the validators into one
 * `ValidationSummary`.
 *
 * The claim collection is a `ClaimStore` whose map the service reads and
 * rewrites (`get_claim`, `update_claim`, `push_to_array`). OCR text, the
 * language model's replies, the clock, the image files and the order in
 * which the vision threads finish are parameters.
 */
module ClaimValidationService {
  import opened Basics
  import opened Text
  import opened Json
  import opened ClaimSchema
  import opened ValidationService
  import opened DataExtraction
  import opened VisionService

  /** A stored document (lines 72-79). */
  datatype Document = Document(
    documentType: string,
    filename: string,
    rawText: string,
    extractedData: Object,
    confidence: real,
    uploadedAt: string)

  /** A stored image record (lines 138-143); `localPath` is where the bytes were written. */
  datatype StoredImage = StoredImage(
    filename: string,
    angleDescription: Option<string>,
    uploadedAt: string,
    localPath: Option<string>)

  /** The parts of a claim the service reads and writes. */
  datatype Claim = Claim(
    documents: seq<Document>,
    images: seq<StoredImage>,
    validation: Option<ValidationSummary>,
    status: string)

  /** The claim collection, by claim id. */
  class ClaimStore {
    var claims: map<string, Claim>

    constructor (claims: map<string, Claim>)
      ensures this.claims == claims
    {
      this.claims := claims;
    }
  }

  // ---------------------------------------------------------------------
  // The document upsert of `upload_document` (lines 81-91)

  /** The index of the first document of type `t`, if any. */
  function FirstOfType(documents: seq<Document>, t: string): (i: Option<nat>)
    ensures i.Some? ==>
      && i.value < |documents|
      && documents[i.value].documentType == t
      && forall j :: 0 <= j < i.value ==> documents[j].documentType != t
    ensures i.None? ==> forall j :: 0 <= j < |documents| ==> documents[j].documentType != t
  {
    if documents == [] then None
    else if documents[0].documentType == t then Some(0)
    else
      var rest := FirstOfType(documents[1..], t);
      if rest.Some? then Some(rest.value + 1) else None
  }

  /** The document list after storing `doc`: the first of its type replaced, or `doc` appended. */
  function Upserted(documents: seq<Document>, doc: Document): seq<Document> {
    var i := FirstOfType(documents, doc.documentType);
    if i.Some? then documents[i.value := doc] else documents + [doc]
  }

  /**
   * A document of the same type is replaced where the first one stood and
   * nothing else moves; without one the new document goes at the end. The
   * list grows by at most one, and documents of other types are untouched.
   */
  lemma UpsertMeaning(documents: seq<Document>, doc: Document)
    ensures var t, r := doc.documentType, Upserted(documents, doc);
      && (exists j :: 0 <= j < |documents| && documents[j].documentType == t) ==>
           && |r| == |documents|
           && var i := FirstOfType(documents, t).value;
              r[i] == doc && forall j :: 0 <= j < |documents| && j != i ==> r[j] == documents[j]
    ensures var t, r := doc.documentType, Upserted(documents, doc);
      (forall j :: 0 <= j < |documents| ==> documents[j].documentType != t) ==> r == documents + [doc]
    ensures var r := Upserted(documents, doc);
      |documents| <= |r| <= |documents| + 1
      && forall j :: 0 <= j < |documents| && documents[j].documentType != doc.documentType ==> r[j] == documents[j]
    ensures FirstOfType(Upserted(documents, doc), doc.documentType).Some?
      && Upserted(documents, doc)[FirstOfType(Upserted(documents, doc), doc.documentType).value] == doc
  {
    var t := doc.documentType;
    var r := Upserted(documents, doc);
    var i := FirstOfType(documents, t);
    if i.Some? {
      FirstOfTypeUnique(r, t, i.value);
    } else {
      FirstOfTypeUnique(r, t, |documents|);
    }
  }

  lemma {:induction false} FirstOfTypeUnique(documents: seq<Document>, t: string, i: nat)
    requires i < |documents| && documents[i].documentType == t
    requires forall j :: 0 <= j < i ==> documents[j].documentType != t
    ensures FirstOfType(documents, t) == Some(i)
  {
    if i > 0 {
      FirstOfTypeUnique(documents[1..], t, i - 1);
    }
  }

  /** Uploading the same document twice leaves the list as one upload does. */
  lemma UpsertIdempotent(documents: seq<Document>, doc: Document)
    ensures Upserted(Upserted(documents, doc), doc) == Upserted(documents, doc)
  {
    UpsertMeaning(documents, doc);
    var r := Upserted(documents, doc);
    var i := FirstOfType(r, doc.documentType).value;
    assert r[i := doc] == r;
  }

  /** Lines 82-91: a search with `break`, then an overwrite or an append. */
  method Upsert(documents: seq<Document>, doc: Document) returns (result: seq<Document>)
    ensures result == Upserted(documents, doc)
  {
    var existing: Option<nat> := None;
    var idx := 0;
    while idx < |documents|
      invariant 0 <= idx <= |documents|
      invariant existing.None? ==> forall j :: 0 <= j < idx ==> documents[j].documentType != doc.documentType
      invariant existing.Some? ==> existing == FirstOfType(documents, doc.documentType)
      decreases |documents| - idx, if existing.None? then 1 else 0
    {
      if documents[idx].documentType == doc.documentType {
        FirstOfTypeUnique(documents, doc.documentType, idx);
        existing := Some(idx);
        break;
      }
      idx := idx + 1;
    }
    if existing.Some? {
      result := documents[existing.value := doc];
    } else {
      result := documents + [doc];
    }
  }

  // ---------------------------------------------------------------------
  // upload_document and upload_image

  /** Why an upload returned `success` false. */
  datatype UploadError = ExtractionFailed(cause: Option<ExtractionError>) | ClaimNotFound

  /** The `data` of a successful document upload. */
  datatype DocumentUpload = DocumentUpload(claimId: string, document: ExtractedDocumentData)

  /** What `extract_data` returns for a document type and the model's reply. */
  function ExtractionFor(documentType: string, reply: Option<string>, decode: Decoder, parseFloat: FloatParser): Extraction {
    if KindOf(documentType).None? then Failure(UnknownDocumentType(documentType))
    else ExtractionOf(KindOf(documentType).value, reply, decode, parseFloat)
  }

  /** The document `upload_document` stores for a successful extraction. */
  function NewDocument(documentType: string, filename: string, ocrText: string, e: Extraction, uploadedAt: string): Document {
    Document(documentType, filename, ocrText, e.data, e.confidence, uploadedAt)
  }

  /**
   * `upload_document` (lines 41-107): the OCR text is extracted into a
   * record; a failed extraction or a missing claim returns an error and
   * leaves the store as it was; otherwise the claim's documents are
   * upserted with the new document.
   */
  method UploadDocument(store: ClaimStore, claimId: string, documentType: string, filename: string, ocrText: string,
                        reply: Option<string>, decode: Decoder, parseFloat: FloatParser, uploadedAt: string)
      returns (r: Result<DocumentUpload, UploadError>)
    modifies store
    ensures var e := ExtractionFor(documentType, reply, decode, parseFloat);
      !e.success ==> r == Err(ExtractionFailed(e.error)) && store.claims == old(store.claims)
    ensures var e := ExtractionFor(documentType, reply, decode, parseFloat);
      e.success && claimId !in old(store.claims) ==> r == Err(ClaimNotFound) && store.claims == old(store.claims)
    ensures var e := ExtractionFor(documentType, reply, decode, parseFloat);
      e.success && claimId in old(store.claims) ==>
        var claim := old(store.claims)[claimId];
        var doc := NewDocument(documentType, filename, ocrText, e, uploadedAt);
        && store.claims == old(store.claims)[claimId := claim.(documents := Upserted(claim.documents, doc))]
        && r == Ok(DocumentUpload(claimId, ExtractedDocumentData(documentType, ocrText, e.data, e.confidence)))
  {
    var extraction := ExtractData(documentType, reply, decode, parseFloat);
    if !extraction.success {
      return Err(ExtractionFailed(extraction.error));
    }
    if claimId !in store.claims {
      return Err(ClaimNotFound);
    }
    var claim := store.claims[claimId];
    var documentData := Document(documentType, filename, ocrText, extraction.data, extraction.confidence, uploadedAt);
    var documents := Upsert(claim.documents, documentData);
    store.claims := store.claims[claimId := claim.(documents := documents)];
    r := Ok(DocumentUpload(claimId, ExtractedDocumentData(documentType, ocrText, extraction.data, extraction.confidence)));
  }

  /** The document a successful upload reports carries a confidence in [0, 1]. */
  lemma UploadedConfidence(documentType: string, reply: Option<string>, decode: Decoder, parseFloat: FloatParser)
    ensures InUnit(ExtractionFor(documentType, reply, decode, parseFloat).confidence)
    ensures var e := ExtractionFor(documentType, reply, decode, parseFloat);
      !e.success ==> e.error.Some?
  {
    var k := KindOf(documentType);
    if k.Some? && reply.Some? {
      FailureShape(k.value, decode(CleanReply(reply.value)), parseFloat);
    }
  }

  /**
   * `upload_image` (lines 109-160): a missing claim is an error; otherwise
   * the image record, with the path its bytes were written to, is appended
   * to the claim's images and nothing else changes.
   */
  method UploadImage(store: ClaimStore, claimId: string, filename: string, angleDescription: Option<string>,
                     uploadedAt: string, localPath: string)
      returns (r: Result<StoredImage, UploadError>)
    modifies store
    ensures claimId !in old(store.claims) ==> r == Err(ClaimNotFound) && store.claims == old(store.claims)
    ensures claimId in old(store.claims) ==>
      var claim := old(store.claims)[claimId];
      var image := StoredImage(filename, angleDescription, uploadedAt, Some(localPath));
      && r == Ok(image)
      && store.claims == old(store.claims)[claimId := claim.(images := claim.images + [image])]
  {
    if claimId !in store.claims {
      return Err(ClaimNotFound);
    }
    var image := StoredImage(filename, angleDescription, uploadedAt, Some(localPath));
    var claim := store.claims[claimId];
    store.claims := store.claims[claimId := claim.(images := claim.images + [image])];
    r := Ok(image);
  }

  // ---------------------------------------------------------------------
  // Slot selection in `validate_claim` (lines 180-196)

  /** The four typed records `validate_claim` fills from the documents. */
  datatype Slots = Slots(
    policy: Option<PolicyData>,
    claimForm: Option<ClaimFormData>,
    license: Option<LicenseData>,
    kyc: Option<KycData>)

  const NoSlots := Slots(None, None, None, None)

  /** Which slot a document type fills: Aadhaar and PAN share the KYC slot, other types fill none. */
  datatype SlotKind = PolicySlot | ClaimFormSlot | LicenseSlot | KycSlot

  function SlotOf(t: string): Option<SlotKind> {
    if t == PolicyType then Some(PolicySlot)
    else if t == ClaimFormType then Some(ClaimFormSlot)
    else if t == DrivingLicenseType then Some(LicenseSlot)
    else if IsKycType(t) then Some(KycSlot)
    else None
  }

  /** One iteration of lines 185-196, or `None` where the record constructor raises. */
  function SlotStep(s: Slots, doc: Document): Option<Slots> {
    var d := doc.extractedData;
    match SlotOf(doc.documentType)
    case None => Some(s)
    case Some(PolicySlot) => if PolicyFromDict(d).None? then None else Some(s.(policy := PolicyFromDict(d)))
    case Some(ClaimFormSlot) => if ClaimFormFromDict(d).None? then None else Some(s.(claimForm := ClaimFormFromDict(d)))
    case Some(LicenseSlot) => if LicenseFromDict(d).None? then None else Some(s.(license := LicenseFromDict(d)))
    case Some(KycSlot) => if KycFromDict(d).None? then None else Some(s.(kyc := KycFromDict(d)))
  }

  /** The slots after the loop over `documents`, or `None` where some constructor raised. */
  function SelectedSlots(documents: seq<Document>): Option<Slots> {
    if documents == [] then Some(NoSlots)
    else
      var s := SelectedSlots(documents[..|documents| - 1]);
      if s.None? then None else SlotStep(s.value, documents[|documents| - 1])
  }

  /** Whether the record constructor for the document's type accepts its data. */
  predicate Parses(doc: Document) {
    var d := doc.extractedData;
    match SlotOf(doc.documentType)
    case None => true
    case Some(PolicySlot) => PolicyFromDict(d).Some?
    case Some(ClaimFormSlot) => ClaimFormFromDict(d).Some?
    case Some(LicenseSlot) => LicenseFromDict(d).Some?
    case Some(KycSlot) => KycFromDict(d).Some?
  }

  /** The index of the last document that fills slot `k`, if any. */
  function LastOfSlot(documents: seq<Document>, k: SlotKind): (i: Option<nat>)
    ensures i.Some? ==>
      && i.value < |documents|
      && SlotOf(documents[i.value].documentType) == Some(k)
      && forall j :: i.value < j < |documents| ==> SlotOf(documents[j].documentType) != Some(k)
    ensures i.None? ==> forall j :: 0 <= j < |documents| ==> SlotOf(documents[j].documentType) != Some(k)
  {
    if documents == [] then None
    else if SlotOf(documents[|documents| - 1].documentType) == Some(k) then Some(|documents| - 1)
    else LastOfSlot(documents[..|documents| - 1], k)
  }

  /** The selection succeeds exactly when every document of a slotted type converts. */
  lemma {:induction false} SlotsSucceed(documents: seq<Document>)
    ensures SelectedSlots(documents).Some? <==> forall j :: 0 <= j < |documents| ==> Parses(documents[j])
  {
    if documents != [] {
      var init := documents[..|documents| - 1];
      SlotsSucceed(init);
      assert forall j :: 0 <= j < |init| ==> init[j] == documents[j];
    }
  }

  /*
   * Each slot holds the record of the LAST document of its type (Aadhaar
   * and PAN competing for the KYC slot), and is empty when there is none.
   */

  lemma {:induction false} PolicySlotLastWins(documents: seq<Document>)
    requires SelectedSlots(documents).Some?
    ensures SelectedSlots(documents).value.policy ==
      (var i := LastOfSlot(documents, PolicySlot); if i.None? then None else PolicyFromDict(documents[i.value].extractedData))
  {
    if documents != [] {
      PolicySlotLastWins(documents[..|documents| - 1]);
    }
  }

  lemma {:induction false} ClaimFormSlotLastWins(documents: seq<Document>)
    requires SelectedSlots(documents).Some?
    ensures SelectedSlots(documents).value.claimForm ==
      (var i := LastOfSlot(documents, ClaimFormSlot); if i.None? then None else ClaimFormFromDict(documents[i.value].extractedData))
  {
    if documents != [] {
      ClaimFormSlotLastWins(documents[..|documents| - 1]);
    }
  }

  lemma {:induction false} LicenseSlotLastWins(documents: seq<Document>)
    requires SelectedSlots(documents).Some?
    ensures SelectedSlots(documents).value.license ==
      (var i := LastOfSlot(documents, LicenseSlot); if i.None? then None else LicenseFromDict(documents[i.value].extractedData))
  {
    if documents != [] {
      LicenseSlotLastWins(documents[..|documents| - 1]);
    }
  }

  lemma {:induction false} KycSlotLastWins(documents: seq<Document>)
    requires SelectedSlots(documents).Some?
    ensures SelectedSlots(documents).value.kyc ==
      (var i := LastOfSlot(documents, KycSlot); if i.None? then None else KycFromDict(documents[i.value].extractedData))
  {
    if documents != [] {
      KycSlotLastWins(documents[..|documents| - 1]);
    }
  }

  /** Once a constructor has raised, later documents do not matter. */
  lemma {:induction false} SlotsFailureSticks(documents: seq<Document>, k: nat)
    requires k <= |documents| && SelectedSlots(documents[..k]).None?
    ensures SelectedSlots(documents).None?
    decreases |documents| - k
  {
    if k < |documents| {
      assert documents[..k + 1][..k] == documents[..k];
      SlotsFailureSticks(documents, k + 1);
    } else {
      assert documents[..k] == documents;
    }
  }

  /** A document of a type without a slot (a repair estimate, say) changes nothing. */
  lemma IgnoredDocument(documents: seq<Document>, doc: Document)
    requires SlotOf(doc.documentType).None?
    ensures SelectedSlots(documents + [doc]) == SelectedSlots(documents)
  {
    assert (documents + [doc])[..|documents|] == documents;
  }

  /** Lines 180-196: four slot variables reassigned in a loop over the documents. */
  method SelectSlots(documents: seq<Document>) returns (r: Option<Slots>)
    ensures r == SelectedSlots(documents)
  {
    var policy: Option<PolicyData> := None;
    var claimForm: Option<ClaimFormData> := None;
    var license: Option<LicenseData> := None;
    var kyc: Option<KycData> := None;
    for k := 0 to |documents|
      invariant SelectedSlots(documents[..k]) == Some(Slots(policy, claimForm, license, kyc))
    {
      assert documents[..k + 1][..k] == documents[..k];
      var doc := documents[k];
      var extracted := doc.extractedData;
      var docType := doc.documentType;
      if docType == PolicyType {
        policy := PolicyFromDict(extracted);
        if policy.None? {
          SlotsFailureSticks(documents, k + 1);
          return None;
        }
      } else if docType == ClaimFormType {
        claimForm := ClaimFormFromDict(extracted);
        if claimForm.None? {
          SlotsFailureSticks(documents, k + 1);
          return None;
        }
      } else if docType == DrivingLicenseType {
        license := LicenseFromDict(extracted);
        if license.None? {
          SlotsFailureSticks(documents, k + 1);
          return None;
        }
      } else if docType in [AadhaarType, PanType] {
        kyc := KycFromDict(extracted);
        if kyc.None? {
          SlotsFailureSticks(documents, k + 1);
          return None;
        }
      }
    }
    assert documents[..|documents|] == documents;
    r := Some(Slots(policy, claimForm, license, kyc));
  }

  // ---------------------------------------------------------------------
  // Damage analysis in `validate_claim` (lines 218-253)

  /**
   * What reading an image's local file gives: no file at the path (the
   * `exists()` test fails), a read that raises, or the file's bytes.
   */
  datatype FileRead = NoFile | ReadFailed | Bytes(data: seq<bv8>)

  /** The local file system, as seen by `Path.exists` and `open(...).read()`. */
  type FileReader = string -> FileRead

  /** Whether an image has a local path whose read raises. */
  predicate ReadRaises(img: StoredImage, readFile: FileReader) {
    Present(img.localPath) && readFile(img.localPath.value).ReadFailed?
  }

  /**
   * Lines 224-241: the images with a path and a file, with their bytes, in
   * order; `None` where a read raises, which leaves the `try` at line 222.
   */
  function CollectedImages(images: seq<StoredImage>, readFile: FileReader): Option<seq<ImageInput>> {
    if images == [] then Some([])
    else
      var init := CollectedImages(images[..|images| - 1], readFile);
      var img := images[|images| - 1];
      if init.None? || !Present(img.localPath) then init
      else
        match readFile(img.localPath.value)
        case NoFile => init
        case ReadFailed => None
        case Bytes(data) => Some(init.value + [ImageInput(data, img.angleDescription)])
  }

  /**
   * Collecting fails exactly when some image's read raises; otherwise no
   * more inputs are collected than there are images.
   */
  lemma {:induction false} CollectedImagesMeaning(images: seq<StoredImage>, readFile: FileReader)
    ensures CollectedImages(images, readFile).None? <==> exists i :: 0 <= i < |images| && ReadRaises(images[i], readFile)
    ensures CollectedImages(images, readFile).Some? ==> |CollectedImages(images, readFile).value| <= |images|
  {
    if images != [] {
      var init := images[..|images| - 1];
      CollectedImagesMeaning(init, readFile);
      assert forall i :: 0 <= i < |init| ==> init[i] == images[i];
      if exists i :: 0 <= i < |images| && ReadRaises(images[i], readFile) {
        var i :| 0 <= i < |images| && ReadRaises(images[i], readFile);
        if i < |init| {
          assert ReadRaises(init[i], readFile);
        }
      }
    }
  }

  /** `input` is image `i`'s file, read, with that image's angle. */
  predicate ReadFrom(images: seq<StoredImage>, readFile: FileReader, i: int, input: ImageInput) {
    && 0 <= i < |images| && Present(images[i].localPath)
    && readFile(images[i].localPath.value) == Bytes(input.bytes)
    && input.angleDescription == images[i].angleDescription
  }

  /** Collected input `j` is the file and angle of image `i`, one of the images. */
  lemma {:induction false} CollectedImageOrigin(images: seq<StoredImage>, readFile: FileReader, j: nat) returns (i: nat)
    requires CollectedImages(images, readFile).Some? && j < |CollectedImages(images, readFile).value|
    ensures ReadFrom(images, readFile, i, CollectedImages(images, readFile).value[j])
  {
    var init := images[..|images| - 1];
    var before := CollectedImages(init, readFile);
    assert before.Some?;
    var inputs := CollectedImages(images, readFile).value;
    if j < |before.value| {
      assert inputs[j] == before.value[j];
      i := CollectedImageOrigin(init, readFile, j);
      assert init[i] == images[i];
    } else {
      i := |images| - 1;
    }
  }

  /** Lines 226-241: images without a path or without a file are skipped, and a read that raises stops the collection. */
  method CollectImages(images: seq<StoredImage>, readFile: FileReader) returns (r: Option<seq<ImageInput>>)
    ensures r == CollectedImages(images, readFile)
  {
    var inputs := [];
    for k := 0 to |images|
      invariant CollectedImages(images[..k], readFile) == Some(inputs)
    {
      assert images[..k + 1][..k] == images[..k];
      var localPath := images[k].localPath;
      if !Present(localPath) {
        continue;
      }
      var read := readFile(localPath.value);
      match read
      case NoFile =>
      case ReadFailed =>
        CollectedFailureSticks(images, readFile, k + 1);
        return None;
      case Bytes(data) =>
        inputs := inputs + [ImageInput(data, images[k].angleDescription)];
    }
    assert images[..|images|] == images;
    r := Some(inputs);
  }

  /** Once a prefix fails to collect, the whole list does. */
  lemma {:induction false} CollectedFailureSticks(images: seq<StoredImage>, readFile: FileReader, k: nat)
    requires k <= |images|
    requires CollectedImages(images[..k], readFile).None?
    ensures CollectedImages(images, readFile).None?
    decreases |images| - k
  {
    if k < |images| {
      assert images[..k + 1][..k] == images[..k];
      CollectedFailureSticks(images, readFile, k + 1);
    } else {
      assert images[..k] == images;
    }
  }

  /** Whether the vision analysis runs: images, a claim form, every read succeeding and at least one image collected. */
  predicate DamageRuns(images: seq<StoredImage>, claimForm: Option<ClaimFormData>, readFile: FileReader) {
    images != [] && claimForm.Some? && CollectedImages(images, readFile).Some? && CollectedImages(images, readFile).value != []
  }

  /**
   * Lines 218-253: the damage result, or `None` where the analysis did not
   * run or raised (the exception is swallowed).
   */
  method AnalyzeClaimDamage(images: seq<StoredImage>, claimForm: Option<ClaimFormData>, readFile: FileReader,
                            api: VisionApi, decode: Decoder, parseFloat: FloatParser, completionOrder: nat -> seq<nat>)
      returns (damage: Option<DamageResult>)
    requires forall n: nat :: IsOrder(completionOrder(n), n)
    ensures !DamageRuns(images, claimForm, readFile) ==> damage.None?
    ensures DamageRuns(images, claimForm, readFile) ==>
      var inputs := CollectedImages(images, readFile).value;
      var outcomes := Outcomes(api, decode, parseFloat, inputs, claimForm.value.accidentDescription, claimForm.value.damageLocation);
      && (damage.Some? <==> AllMergeable(outcomes))
      && (damage.Some? ==> damage.value.Valid() && MergedFrom(damage.value, Arrival(outcomes, completionOrder(|inputs|))))
  {
    damage := None;
    if images != [] && claimForm.Some? {
      var collected := CollectImages(images, readFile);
      if collected.Some? && collected.value != [] {
        var inputs := collected.value;
        var r := AnalyzeMultipleImages(api, decode, parseFloat, inputs, claimForm.value.accidentDescription,
                                       claimForm.value.damageLocation, completionOrder(|inputs|));
        if r.Ok? {
          damage := Some(r.value);
        }
      }
    }
  }

  // ---------------------------------------------------------------------
  // The summary (lines 255-285)

  /** The issue each failing validator reports, in the order name, vehicle, date. */
  function Issues(name: NameResult, vehicle: VehicleResult, date: DateResult): seq<Issue> {
    (if name.isValid then [] else [NameIssue(name.message)])
    + (if vehicle.isValid then [] else [VehicleIssue(vehicle.message)])
    + (if date.isValid then [] else [DateIssue(date.message)])
  }

  /** The confidences of the 3 or 4 results in `validations`. */
  function ResultConfidences(name: NameResult, vehicle: VehicleResult, date: DateResult, damage: Option<DamageResult>): seq<real> {
    [name.confidence, vehicle.confidence, date.confidence] + (if damage.Some? then [damage.value.confidence] else [])
  }

  /** The summary `validate_claim` builds from the four results. */
  function Summary(name: NameResult, vehicle: VehicleResult, date: DateResult, damage: Option<DamageResult>): ValidationSummary {
    ValidationSummary(
      overallValid := name.isValid && vehicle.isValid && date.isValid,
      overallConfidence := Mean(ResultConfidences(name, vehicle, date, damage)),
      nameValidation := name,
      vehicleValidation := vehicle,
      dateValidation := date,
      damageValidation := damage,
      issues := Issues(name, vehicle, date),
      warnings := if damage.Some? && !damage.value.matchesDescription then [DamageMismatchWarning] else [])
  }

  /**
   * The summary's verdict is the conjunction of the name, vehicle and date
   * verdicts; the damage result never changes it. The confidence is the
   * plain average of three results, or of four when damage was analysed,
   * and lies in [0, 1]. There is one issue per failing validator, in order,
   * and one warning exactly when damage was analysed and does not match.
   */
  lemma SummaryMeaning(name: NameResult, vehicle: VehicleResult, date: DateResult, damage: Option<DamageResult>)
    requires name.Valid() && vehicle.Valid() && date.Valid()
    requires damage.Some? ==> damage.value.Valid()
    ensures var s := Summary(name, vehicle, date, damage);
      && s.Valid()
      && (s.overallValid <==> name.isValid && vehicle.isValid && date.isValid)
      && s.overallValid == Summary(name, vehicle, date, None).overallValid
      && (damage.None? ==> s.overallConfidence == (name.confidence + vehicle.confidence + date.confidence) / 3.0)
      && (damage.Some? ==>
            s.overallConfidence == (name.confidence + vehicle.confidence + date.confidence + damage.value.confidence) / 4.0)
      && |s.issues| == (if name.isValid then 0 else 1) + (if vehicle.isValid then 0 else 1) + (if date.isValid then 0 else 1)
      && (s.issues == [] <==> s.overallValid)
      && (NameIssue(name.message) in s.issues <==> !name.isValid)
      && (VehicleIssue(vehicle.message) in s.issues <==> !vehicle.isValid)
      && (DateIssue(date.message) in s.issues <==> !date.isValid)
      && (s.warnings != [] <==> damage.Some? && !damage.value.matchesDescription)
      && |s.warnings| <= 1
  {
    var cs := ResultConfidences(name, vehicle, date, damage);
    assert AllInUnit(cs);
    MeanInUnit(cs);
    var base := [name.confidence, vehicle.confidence, date.confidence];
    SumOfThree(name.confidence, vehicle.confidence, date.confidence);
    if damage.Some? {
      assert cs[..3] == base;
    } else {
      assert cs == base;
    }
  }

  lemma SumOfThree(a: real, b: real, c: real)
    ensures Sum([a, b, c]) == a + b + c
  {
    assert [a][..0] == [];
    assert Sum([a]) == a;
    assert [a, b][..1] == [a];
    assert Sum([a, b]) == a + b;
    assert [a, b, c][..2] == [a, b];
  }

  /** Lines 256-285: `validations`, `issues` and `warnings` built by appending. */
  method Summarize(name: NameResult, vehicle: VehicleResult, date: DateResult, damage: Option<DamageResult>)
      returns (summary: ValidationSummary)
    ensures summary == Summary(name, vehicle, date, damage)
  {
    var confidences := [name.confidence, vehicle.confidence, date.confidence];
    if damage.Some? {
      confidences := confidences + [damage.value.confidence];
    }
    assert confidences == ResultConfidences(name, vehicle, date, damage);
    var overallValid := name.isValid && vehicle.isValid && date.isValid;
    var overallConfidence := Sum(confidences) / (|confidences| as real);

    var issues: seq<Issue> := [];
    var warnings: seq<Warning> := [];
    if !name.isValid {
      issues := issues + [NameIssue(name.message)];
    }
    if !vehicle.isValid {
      issues := issues + [VehicleIssue(vehicle.message)];
    }
    if !date.isValid {
      issues := issues + [DateIssue(date.message)];
    }
    if damage.Some? && !damage.value.matchesDescription {
      warnings := warnings + [DamageMismatchWarning];
    }
    assert issues == Issues(name, vehicle, date);
    summary := ValidationSummary(overallValid, overallConfidence, name, vehicle, date, damage, issues, warnings);
  }

  // ---------------------------------------------------------------------
  // validate_claim

  /** Why `validate_claim` returned `success` false. */
  datatype ValidateError = ClaimMissing | NoDocuments | InvalidDocument

  function PolicyName(s: Slots): Option<string> {
    if s.policy.Some? then s.policy.value.insuredName else None
  }

  function ClaimFormName(s: Slots): Option<string> {
    if s.claimForm.Some? then s.claimForm.value.insuredName else None
  }

  function KycName(s: Slots): Option<string> {
    if s.kyc.Some? then s.kyc.value.name else None
  }

  /**
   * `validate_claim` (lines 162-305). A missing claim, an empty document
   * list or a document whose record does not convert returns an error and
   * changes nothing. Otherwise the names of policy, claim form and KYC
   * record are compared (never the licence's), the vehicle and the dates
   * are checked, the damage is analysed when it can be, and the summary
   * built from the four results is stored on the claim with status
   * "validated" and returned.
   */
  method ValidateClaim(store: ClaimStore, claimId: string, ratio: Ratio, strptime: Strptime, today: Date,
                       readFile: FileReader, api: VisionApi, decode: Decoder, parseFloat: FloatParser,
                       completionOrder: nat -> seq<nat>)
      returns (r: Result<ValidationSummary, ValidateError>)
    requires forall n: nat :: IsOrder(completionOrder(n), n)
    modifies store
    ensures claimId !in old(store.claims) ==> r == Err(ClaimMissing) && store.claims == old(store.claims)
    ensures claimId in old(store.claims) && old(store.claims)[claimId].documents == [] ==>
      r == Err(NoDocuments) && store.claims == old(store.claims)
    ensures claimId in old(store.claims) && SelectedSlots(old(store.claims)[claimId].documents).None? ==>
      r == Err(InvalidDocument) && store.claims == old(store.claims)
    ensures r.Ok? ==>
      && claimId in old(store.claims)
      && var claim := old(store.claims)[claimId];
         && claim.documents != []
         && SelectedSlots(claim.documents).Some?
         && var s := SelectedSlots(claim.documents).value;
            var summary := r.value;
            && summary.Valid()
            && summary == Summary(summary.nameValidation, summary.vehicleValidation, summary.dateValidation,
                                  summary.damageValidation)
            && summary.nameValidation == NameVerdict(Similarity(ratio), PresentNames(PolicyName(s), ClaimFormName(s), KycName(s)))
            && VehicleVerdict(s.policy, s.claimForm, summary.vehicleValidation)
            && summary.dateValidation == DateVerdict(ParseAll(strptime, s.policy, s.claimForm, s.license), today,
                                                     MissingDates(s.policy, s.claimForm, s.license), s.policy.Some?)
            && (!DamageRuns(claim.images, s.claimForm, readFile) ==> summary.damageValidation.None?)
            && (DamageRuns(claim.images, s.claimForm, readFile) ==>
                  var inputs := CollectedImages(claim.images, readFile).value;
                  var outcomes := Outcomes(api, decode, parseFloat, inputs, s.claimForm.value.accidentDescription,
                                           s.claimForm.value.damageLocation);
                  && (summary.damageValidation.Some? <==> AllMergeable(outcomes))
                  && (summary.damageValidation.Some? ==>
                        MergedFrom(summary.damageValidation.value, Arrival(outcomes, completionOrder(|inputs|)))))
            && store.claims == old(store.claims)[claimId := claim.(validation := Some(summary), status := "validated")]
    ensures (claimId in old(store.claims) && old(store.claims)[claimId].documents != []
             && SelectedSlots(old(store.claims)[claimId].documents).Some?) ==> r.Ok?
    ensures r.Err? ==> store.claims == old(store.claims)
  {
    if claimId !in store.claims {
      return Err(ClaimMissing);
    }
    var claim := store.claims[claimId];
    var documents := claim.documents;
    if documents == [] {
      return Err(NoDocuments);
    }
    var slots := SelectSlots(documents);
    if slots.None? {
      return Err(InvalidDocument);
    }
    var s := slots.value;

    var nameValidation := ValidateNames(ratio, PolicyName(s), ClaimFormName(s), None, KycName(s));
    var vehicleValidation := ValidateVehicle(s.policy, s.claimForm);
    var dateValidation := ValidateDates(strptime, today, s.policy, s.claimForm, s.license);
    var damageValidation := AnalyzeClaimDamage(claim.images, s.claimForm, readFile, api, decode, parseFloat, completionOrder);

    NameVerdictMeaning(Similarity(ratio), PresentNames(PolicyName(s), ClaimFormName(s), KycName(s)));
    DateVerdictMeaning(ParseAll(strptime, s.policy, s.claimForm, s.license), today,
                       MissingDates(s.policy, s.claimForm, s.license), s.policy.Some?);
    SummaryMeaning(nameValidation, vehicleValidation, dateValidation, damageValidation);
    var summary := Summarize(nameValidation, vehicleValidation, dateValidation, damageValidation);

    store.claims := store.claims[claimId := claim.(validation := Some(summary), status := "validated")];
    r := Ok(summary);
  }
}
