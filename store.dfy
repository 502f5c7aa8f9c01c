/**
 * The Broadlink learned-command store, taken as already parsed JSON, and the
 * selection of one appliance's record from it (the part of
 * `_read_broadlink_commands` that runs after the file has been read and parsed).
 */
module Store {
  import opened Wrappers

  /** A parsed JSON document; numbers are abstracted to integers. */
  datatype Json =
    | JNull
    | JBool(b: bool)
    | JNumber(n: int)
    | JString(s: string)
    | JArray(items: seq<Json>)
    | JObject(fields: map<string, Json>)

  /** What the selection yields: the copied record, None, or the error that `.copy()` raises on a value that has no such method. */
  datatype Selection = Selected(record: Json) | NoRecord | CopyRaises

  /** Only lists and dicts have a `.copy()` method. */
  predicate IsContainer(v: Json)
  {
    v.JArray? || v.JObject?
  }

  /** The document is a dict whose "data" member is a dict holding an entry for the appliance. */
  predicate HasRecord(data: Json, uid: string)
  {
    data.JObject? && "data" in data.fields && data.fields["data"].JObject?
    && uid in data.fields["data"].fields
  }

  function Record(data: Json, uid: string): Json
    requires HasRecord(data, uid)
  {
    data.fields["data"].fields[uid]
  }

  /** The entry of `data["data"]` for the appliance, copied; None when any step of the path is missing. */
  function SelectRecord(data: Json, uid: string): (r: Selection)
    ensures r.Selected? <==> HasRecord(data, uid) && IsContainer(Record(data, uid))
    ensures r.Selected? ==> r.record == Record(data, uid)
    ensures r.CopyRaises? <==> HasRecord(data, uid) && !IsContainer(Record(data, uid))
  {
    match data
    case JObject(top) =>
      if "data" in top && top["data"].JObject? then
        var devices := top["data"].fields;
        if uid in devices then
          match devices[uid]
          case JObject(_) => Selected(devices[uid])
          case JArray(_) => Selected(devices[uid])
          case _ => CopyRaises
        else NoRecord
      else NoRecord
    case _ => NoRecord
  }

  /** The whole read: a missing file (None) yields no record. */
  function ReadBroadlinkCommands(store: Option<Json>, uid: string): Selection
  {
    if store.None? then NoRecord else SelectRecord(store.value, uid)
  }
}
