/**
 * The response helpers of `Utils`: `_serialize_data`, which turns every
 * `ObjectId` inside a value into its hexadecimal string, and
 * `create_response`, which raises on failure and wraps serialised data on
 * success.
 */
module Utilities {
  import opened Basics
  import opened Json

  /** Whether no `ObjectId` occurs anywhere inside `v`. */
  predicate NoObjectId(v: Value) {
    match v
    case ObjectId(_) => false
    case List(items) => forall i :: 0 <= i < |items| ==> NoObjectId(items[i])
    case Dict(m) => forall k :: k in m ==> NoObjectId(m[k])
    case _ => true
  }

  /** `Utils._serialize_data` */
  function SerializeData(v: Value): (r: Value)
    ensures v.ObjectId? ==> r == Str(v.hex)
    ensures v.Dict? ==> r.Dict? && r.entries.Keys == v.entries.Keys
    ensures v.Dict? ==> forall k :: k in v.entries ==> r.entries[k] == SerializeData(v.entries[k])
    ensures v.List? ==> r.List? && |r.items| == |v.items|
    ensures v.List? ==> forall i :: 0 <= i < |v.items| ==> r.items[i] == SerializeData(v.items[i])
    ensures !(v.ObjectId? || v.Dict? || v.List?) ==> r == v
  {
    match v
    case ObjectId(h) => Str(h)
    case Dict(m) => Dict(map k | k in m :: SerializeData(m[k]))
    case List(items) => List(seq(|items|, i requires 0 <= i < |items| => SerializeData(items[i])))
    case _ => v
  }

  /** No `ObjectId` survives serialisation. */
  lemma {:induction false} SerializeRemovesObjectIds(v: Value)
    ensures NoObjectId(SerializeData(v))
  {
    match v
    case Dict(m) =>
      forall k | k in m ensures NoObjectId(SerializeData(v).entries[k]) {
        SerializeRemovesObjectIds(m[k]);
      }
    case List(items) =>
      forall i | 0 <= i < |items| ensures NoObjectId(SerializeData(v).items[i]) {
        SerializeRemovesObjectIds(items[i]);
      }
    case _ =>
  }

  /** A value without `ObjectId`s is returned as it is. */
  lemma {:induction false} SerializeKeepsPlainValues(v: Value)
    requires NoObjectId(v)
    ensures SerializeData(v) == v
  {
    match v
    case Dict(m) =>
      forall k | k in m ensures SerializeData(m[k]) == m[k] {
        SerializeKeepsPlainValues(m[k]);
      }
      assert SerializeData(v).entries == m;
    case List(items) =>
      forall i | 0 <= i < |items| ensures SerializeData(items[i]) == items[i] {
        SerializeKeepsPlainValues(items[i]);
      }
      assert SerializeData(v).items == items;
    case _ =>
  }

  /** Serialising a second time changes nothing. */
  lemma SerializeIdempotent(v: Value)
    ensures SerializeData(SerializeData(v)) == SerializeData(v)
  {
    SerializeRemovesObjectIds(v);
    SerializeKeepsPlainValues(SerializeData(v));
  }

  /** `ServerResponse`: the payload and the success flag. */
  datatype ServerResponse = ServerResponse(data: Option<Value>, success: bool)

  const DefaultError := "An error occurred"

  /**
   * `Utils.create_response`: on failure it raises `ValueError` carrying the
   * error text, or the default text when that is empty (`Err` here); on
   * success it returns a successful response with the serialised data.
   */
  function CreateResponse(data: Value, success: bool, error: string): (r: Result<ServerResponse, string>)
    ensures !success <==> r.Err?
    ensures r.Err? ==> r.error != ""
    ensures r.Err? && error != "" ==> r.error == error
    ensures r.Err? && error == "" ==> r.error == DefaultError
    ensures r.Ok? ==> r.value.success && r.value.data.Some? && NoObjectId(r.value.data.value)
    ensures r.Ok? ==> r.value.data.value == SerializeData(data)
  {
    if !success then Err(if error != "" then error else DefaultError)
    else
      SerializeRemovesObjectIds(data);
      Ok(ServerResponse(Some(SerializeData(data)), success))
  }
}
