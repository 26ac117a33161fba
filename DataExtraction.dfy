/**
 * `DataExtractionService`: turning the language model's reply for one OCR
 * text into an extracted record. The reply is cleaned (surrounding
 * whitespace, a Markdown code fence, a `json` tag), decoded, its
 * `confidence` entry is popped and clamped into [0, 1], and the rest is
 * validated as the record of the document's type and dumped back to a
 * dictionary. Every exception on the way gives the same failure shape.
 *
 * The model call, `json.loads` and `float(str)` are parameters: the reply
 * is `None` where the call raised, `decode` and `parseFloat` are `None`
 * where they raise.
 */
module DataExtraction {
  import opened Basics
  import opened Text
  import opened Json
  import opened ClaimSchema

  // ---------------------------------------------------------------------
  // Code fences

  const Fence := "```"

  /**
   * Lines 62-66 of each `extract_*` method: text that starts with a fence
   * is replaced by the text between the first and the second fence (to the
   * end when there is no second one), without a leading `json` tag, and
   * stripped; any other text is kept.
   */
  function StripCodeFence(content: string): (r: string)
    ensures !StartsWith(content, Fence) ==> r == content
  {
    if StartsWith(content, Fence) then
      var inner := Before(content[|Fence|..], Fence);
      var untagged := if StartsWith(inner, "json") then inner[4..] else inner;
      Strip(untagged)
    else content
  }

  /** No fence survives in the text taken out of a fenced reply. */
  lemma FenceRemoved(content: string)
    requires StartsWith(content, Fence)
    ensures !Occurs(StripCodeFence(content), Fence)
  {
    var inner := Before(content[|Fence|..], Fence);
    BeforeHasNoSeparator(content[|Fence|..], Fence);
    var untagged := if StartsWith(inner, "json") then inner[4..] else inner;
    OccurrenceInSlice(inner, Fence, |inner| - |untagged|, |inner|);
    assert untagged == inner[|inner| - |untagged|..|inner|];
    var t := TrimStart(untagged);
    TrimStartSuffix(untagged);
    OccurrenceInSlice(untagged, Fence, |untagged| - |t|, |untagged|);
    assert t == untagged[|untagged| - |t|..|untagged|];
    var u := TrimEnd(t);
    OccurrenceInSlice(t, Fence, 0, |u|);
  }

  /** An occurrence of `sep` in a slice is an occurrence in the whole text. */
  lemma OccurrenceInSlice(s: string, sep: string, a: nat, b: nat)
    requires a <= b <= |s|
    ensures Occurs(s[a..b], sep) ==> Occurs(s, sep)
  {
    if Occurs(s[a..b], sep) {
      var k: nat :| OccursAt(s[a..b], sep, k);
      forall t | 0 <= t < |sep|
        ensures s[a + k..a + k + |sep|][t] == sep[t]
      {
        assert s[a..b][k + t] == s[a + k + t];
      }
      assert s[a + k..a + k + |sep|] == sep;
      assert OccursAt(s, sep, a + k);
    }
  }

  /** Cleaning a reply twice is cleaning it once. */
  lemma StripCodeFenceIdempotent(content: string)
    ensures StripCodeFence(StripCodeFence(content)) == StripCodeFence(content)
  {
    if StartsWith(content, Fence) {
      var r := StripCodeFence(content);
      FenceRemoved(content);
      if StartsWith(r, Fence) {
        assert OccursAt(r, Fence, 0);
      }
    }
  }

  /** With no fence inside `inner` and no backtick at its end, the first fence of `inner + Fence + rest` is the one after `inner`. */
  lemma NoFenceBefore(inner: string, rest: string)
    requires !Occurs(inner, Fence)
    requires inner == [] || inner[|inner| - 1] != '`'
    ensures forall k: nat :: k < |inner| ==> !OccursAt(inner + Fence + rest, Fence, k)
  {
    var after := inner + Fence + rest;
    var p := |inner|;
    forall k: nat | k < p ensures !OccursAt(after, Fence, k) {
      if k + |Fence| <= p {
        assert after[k..k + |Fence|] == inner[k..k + |Fence|];
        assert !OccursAt(inner, Fence, k);
      } else {
        assert after[p - 1] == inner[p - 1];
        assert after[k..k + |Fence|][p - 1 - k] == after[p - 1];
      }
    }
  }

  /**
   * The reply shape the prompts ask models not to send and they send anyway:
   * a fence, an optional `json` tag, the body, a closing fence and anything
   * after it. When no fence occurs before the closing one (none inside the
   * tag and body, and the body does not end in a backtick that would run
   * into it), the body comes back stripped, whatever follows the closing fence.
   */
  lemma FencedReply(tag: string, body: string, rest: string)
    requires tag == "json" || (tag == "" && !StartsWith(body, "json"))
    requires !Occurs(tag + body, Fence)
    requires body == [] || body[|body| - 1] != '`'
    ensures StripCodeFence(Fence + tag + body + Fence + rest) == Strip(body)
  {
    var inner := tag + body;
    var after := inner + Fence + rest;
    var content := Fence + after;
    assert content == Fence + tag + body + Fence + rest;
    assert StartsWith(content, Fence) by {
      assert content[..|Fence|] == Fence;
    }
    assert content[|Fence|..] == after;
    var p := |inner|;
    assert OccursAt(after, Fence, p) by {
      assert after[p..p + |Fence|] == Fence;
    }
    assert inner == [] || inner[p - 1] != '`' by {
      if body != [] {
        assert inner[p - 1] == body[|body| - 1];
      }
    }
    NoFenceBefore(inner, rest);
    BeforeAt(after, Fence, p);
    assert after[..p] == inner;
    if tag == "json" {
      assert StartsWith(inner, "json") by {
        assert inner[..4] == tag;
      }
      assert inner[4..] == body;
    } else {
      assert inner == body;
    }
  }

  /**
   * A reply that opens a fence and never closes it: everything after the
   * opening fence and the optional `json` tag is the body, stripped.
   */
  lemma UnclosedFence(tag: string, body: string)
    requires tag == "json" || (tag == "" && !StartsWith(body, "json"))
    requires !Occurs(tag + body, Fence)
    ensures StripCodeFence(Fence + tag + body) == Strip(body)
  {
    var content := Fence + tag + body;
    assert StartsWith(content, Fence) by {
      assert content[..|Fence|] == Fence;
    }
    var inner := tag + body;
    assert content[|Fence|..] == inner;
    BeforeIsFirst(inner, Fence);
    if tag == "json" {
      assert StartsWith(inner, "json") by {
        assert inner[..4] == tag;
      }
      assert inner[4..] == body;
    } else {
      assert inner == body;
    }
  }

  // ---------------------------------------------------------------------
  // Confidence

  /** `float(confidence) if confidence is not None else 0.0`, or `None` where `float` raises. */
  function ConfidenceValue(v: Value, parseFloat: FloatParser): Option<real> {
    match v
    case Null => Some(0.0)
    case Bool(b) => Some(if b then 1.0 else 0.0)
    case Num(x) => Some(x)
    case Str(s) => parseFloat(s)
    case _ => None
  }

  /** `max(0.0, min(1.0, x))` */
  function Clamp(x: real): (r: real)
    ensures InUnit(r)
    ensures InUnit(x) ==> r == x
    ensures x < 0.0 ==> r == 0.0
    ensures x > 1.0 ==> r == 1.0
  {
    var m := if x < 1.0 then x else 1.0;
    if 0.0 < m then m else 0.0
  }

  /** `data.pop("confidence", 0.0)`: the popped value and what remains of `data`. */
  function PopConfidence(data: Object): (r: (Value, Object))
    ensures r.1 == data - {"confidence"}
    ensures r.0 == Get(data, "confidence", Num(0.0))
  {
    (if "confidence" in data then data["confidence"] else Num(0.0), data - {"confidence"})
  }

  // ---------------------------------------------------------------------
  // Records

  /** The record an `extract_*` method builds; a KYC extraction remembers the requested type. */
  datatype RecordKind = PolicyRecord | ClaimFormRecord | LicenseRecord | KycRecord(docType: string) | RepairEstimateRecord

  /** The keys of the dumped record. */
  function RecordFields(kind: RecordKind): set<string> {
    match kind
    case PolicyRecord => PolicyFields
    case ClaimFormRecord => ClaimFormFields
    case LicenseRecord => LicenseFields
    case KycRecord(_) => KycFields
    case RepairEstimateRecord => {"estimate_amount", "damaged_parts", "workshop_name"}
  }

  /** `Extracted…Data(**data).model_dump()`, or `None` where pydantic raises. */
  function DumpRecord(kind: RecordKind, data: Object): (r: Option<Object>)
    ensures r.Some? ==> r.value.Keys == RecordFields(kind)
  {
    match kind
    case PolicyRecord =>
      var p := PolicyFromDict(data);
      if p.Some? then Some(PolicyToDict(p.value)) else None
    case ClaimFormRecord =>
      var c := ClaimFormFromDict(data);
      if c.Some? then Some(ClaimFormToDict(c.value)) else None
    case LicenseRecord =>
      var l := LicenseFromDict(data);
      if l.Some? then Some(LicenseToDict(l.value)) else None
    case KycRecord(_) =>
      var k := KycFromDict(data);
      if k.Some? then Some(KycToDict(k.value)) else None
    case RepairEstimateRecord =>
      var e := RepairEstimateFromDict(data);
      if e.Some? then Some(RepairEstimateToDict(e.value)) else None
  }

  /** No record declares a `confidence` field, so the dumped data never carries one. */
  lemma NoConfidenceField(kind: RecordKind)
    ensures "confidence" !in RecordFields(kind)
  {
  }

  // ---------------------------------------------------------------------
  // The result dictionary

  /** What `str(e)` reports, as a tag: the step that raised. */
  datatype ExtractionError =
    | CallFailed
    | DecodeFailed
    | NotAnObject
    | BadConfidence
    | InvalidRecord
    | UnknownDocumentType(documentType: string)

  /** `{"success": …, "error": …, "data": …, "confidence": …}` */
  datatype Extraction = Extraction(success: bool, error: Option<ExtractionError>, data: Object, confidence: real)
  {
    predicate Valid() {
      InUnit(confidence)
    }
  }

  /** The `except` branch: `success` false, the error, empty data and confidence 0.0. */
  function Failure(e: ExtractionError): (r: Extraction)
    ensures !r.success && r.error == Some(e) && r.data == map[] && r.confidence == 0.0
  {
    Extraction(false, Some(e), map[], 0.0)
  }

  /** `response.content.strip()` and the fence handling: the text given to `json.loads`. */
  function CleanReply(reply: string): string {
    StripCodeFence(Strip(reply))
  }

  /** The decoded object, with `document_type` set for a KYC record (line 214). */
  function Prepared(kind: RecordKind, data: Object): Object {
    if kind.KycRecord? then data["document_type" := Str(kind.docType)] else data
  }

  /**
   * Lines 68-85 of each `extract_*` method, from what `json.loads` gave
   * (`None` where it raised) to the result dictionary.
   */
  function Interpret(kind: RecordKind, decoded: Option<Value>, parseFloat: FloatParser): Extraction {
    if decoded.None? then Failure(DecodeFailed)
    else if !decoded.value.Dict? then Failure(NotAnObject)
    else
      var popped := PopConfidence(Prepared(kind, decoded.value.entries));
      var value := ConfidenceValue(popped.0, parseFloat);
      if value.None? then Failure(BadConfidence)
      else
        var record := DumpRecord(kind, popped.1);
        if record.None? then Failure(InvalidRecord)
        else Extraction(true, None, record.value, Clamp(value.value))
  }

  /** The result of one `extract_*` method for the model's reply (`None` where the call raised). */
  function ExtractionOf(kind: RecordKind, reply: Option<string>, decode: Decoder, parseFloat: FloatParser): Extraction {
    if reply.None? then Failure(CallFailed)
    else Interpret(kind, decode(CleanReply(reply.value)), parseFloat)
  }

  /** Every failure has the fixed failure shape, and every result's confidence lies in [0, 1]. */
  lemma FailureShape(kind: RecordKind, decoded: Option<Value>, parseFloat: FloatParser)
    ensures var r := Interpret(kind, decoded, parseFloat);
      && r.Valid()
      && (!r.success ==> r.error.Some? && r.data == map[] && r.confidence == 0.0)
  {
  }

  /** A success carries no error and the dumped record of the requested type, without a `confidence` key. */
  lemma SuccessShape(kind: RecordKind, decoded: Option<Value>, parseFloat: FloatParser)
    ensures var r := Interpret(kind, decoded, parseFloat);
      r.success ==> r.error.None? && r.data.Keys == RecordFields(kind) && "confidence" !in r.data
  {
    NoConfidenceField(kind);
  }

  /**
   * An extraction succeeds exactly when the reply decoded to an object, its
   * confidence converts to a number and the rest validates as the record.
   */
  lemma Succeeds(kind: RecordKind, decoded: Option<Value>, parseFloat: FloatParser)
    ensures Interpret(kind, decoded, parseFloat).success <==>
      && decoded.Some? && decoded.value.Dict?
      && var data := Prepared(kind, decoded.value.entries);
         && ConfidenceValue(Get(data, "confidence", Num(0.0)), parseFloat).Some?
         && DumpRecord(kind, data - {"confidence"}).Some?
  {
  }

  /** The confidence of a success is the model's clamped into [0, 1]; absent or `null`, it is 0.0. */
  lemma SuccessConfidence(kind: RecordKind, decoded: Option<Value>, parseFloat: FloatParser)
    requires Interpret(kind, decoded, parseFloat).success
    ensures var data := Prepared(kind, decoded.value.entries);
      var r := Interpret(kind, decoded, parseFloat);
      && r.confidence == Clamp(ConfidenceValue(Get(data, "confidence", Num(0.0)), parseFloat).value)
      && ("confidence" !in data || data["confidence"].Null? ==> r.confidence == 0.0)
  {
  }

  /** A KYC success records the requested document type, whatever the model said. */
  lemma KycTypeOverridden(kind: RecordKind, decoded: Option<Value>, parseFloat: FloatParser)
    requires kind.KycRecord? && Interpret(kind, decoded, parseFloat).success
    ensures Interpret(kind, decoded, parseFloat).data["document_type"] == Str(kind.docType)
  {
    var data := Prepared(kind, decoded.value.entries) - {"confidence"};
    var k := KycFromDict(data);
    assert Interpret(kind, decoded, parseFloat).data == KycToDict(k.value);
    assert StrField(data, "document_type") == Some(kind.docType);
  }

  /** Lines 59-66 of each `extract_*` method: strip the reply and take the JSON out of a code fence. */
  method CleanContent(reply: string) returns (content: string)
    ensures content == CleanReply(reply)
  {
    content := Strip(reply);
    if StartsWith(content, Fence) {
      content := Before(content[|Fence|..], Fence);
      if StartsWith(content, "json") {
        content := content[4..];
      }
      content := Strip(content);
    }
  }

  /**
   * One `extract_*` method: `content` and `data` are rewritten step by step
   * as in the source, and each step that raises ends in the failure shape.
   */
  method ExtractRecord(kind: RecordKind, reply: Option<string>, decode: Decoder, parseFloat: FloatParser)
      returns (r: Extraction)
    ensures r == ExtractionOf(kind, reply, decode, parseFloat)
  {
    if reply.None? {
      return Failure(CallFailed);
    }
    var content := CleanContent(reply.value);
    var decoded := decode(content);
    if decoded.None? {
      return Failure(DecodeFailed);
    }
    if !decoded.value.Dict? {
      return Failure(NotAnObject);
    }
    var data := decoded.value.entries;
    if kind.KycRecord? {
      data := data["document_type" := Str(kind.docType)];
    }
    var raw := if "confidence" in data then data["confidence"] else Num(0.0);
    data := data - {"confidence"};
    var value := ConfidenceValue(raw, parseFloat);
    if value.None? {
      return Failure(BadConfidence);
    }
    var confidence := Clamp(value.value);
    var record := DumpRecord(kind, data);
    if record.None? {
      return Failure(InvalidRecord);
    }
    return Extraction(true, None, record.value, confidence);
  }

  // ---------------------------------------------------------------------
  // extract_data

  /** The `extract_*` method `extract_data` routes a document type to, if any. */
  function KindOf(documentType: string): (k: Option<RecordKind>) {
    if documentType == PolicyType then Some(PolicyRecord)
    else if documentType == ClaimFormType then Some(ClaimFormRecord)
    else if documentType == DrivingLicenseType then Some(LicenseRecord)
    else if IsKycType(documentType) then Some(KycRecord(documentType))
    else if documentType == RepairEstimateType then Some(RepairEstimateRecord)
    else None
  }

  /**
   * Aadhaar and PAN cards both go to the KYC extraction, with their own
   * type; the six document types are routed and nothing else is.
   */
  lemma RoutingMeaning(documentType: string)
    ensures KindOf(AadhaarType) == Some(KycRecord(AadhaarType))
    ensures KindOf(PanType) == Some(KycRecord(PanType))
    ensures KindOf(documentType).Some? <==>
              documentType in {PolicyType, ClaimFormType, DrivingLicenseType, AadhaarType, PanType, RepairEstimateType}
    ensures KindOf(documentType).Some? && KindOf(documentType).value.KycRecord? ==>
              IsKycType(documentType) && KindOf(documentType).value.docType == documentType
  {
  }

  /** `extract_data`: an unknown type fails without calling the model. */
  method ExtractData(documentType: string, reply: Option<string>, decode: Decoder, parseFloat: FloatParser)
      returns (r: Extraction)
    ensures KindOf(documentType).None? ==> r == Failure(UnknownDocumentType(documentType))
    ensures KindOf(documentType).Some? ==> r == ExtractionOf(KindOf(documentType).value, reply, decode, parseFloat)
  {
    if documentType == PolicyType {
      r := ExtractRecord(PolicyRecord, reply, decode, parseFloat);
    } else if documentType == ClaimFormType {
      r := ExtractRecord(ClaimFormRecord, reply, decode, parseFloat);
    } else if documentType == DrivingLicenseType {
      r := ExtractRecord(LicenseRecord, reply, decode, parseFloat);
    } else if documentType in [AadhaarType, PanType] {
      r := ExtractRecord(KycRecord(documentType), reply, decode, parseFloat);
    } else if documentType == RepairEstimateType {
      r := ExtractRecord(RepairEstimateRecord, reply, decode, parseFloat);
    } else {
      r := Failure(UnknownDocumentType(documentType));
    }
  }
}
