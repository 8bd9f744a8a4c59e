/**
 * JSON values as the document builder assembles them with QJsonArray and
 * QJsonObject. An object is a map from key to value: QJsonObject keeps one
 * value per key, and inserting an existing key replaces its value.
 */
module Json {

  import opened Wrappers

  datatype Json<V> =
    | JNumber(num: V)          // a floating-point entry copied from a dataset
    | JInt(n: int)             // an integer entry (cluster index, category id)
    | JString(str: string)
    | JArray(items: seq<Json<V>>)
    | JObject(fields: map<string, Json<V>>)

  /** The keys of an object, empty for any other value. */
  function Keys<V>(j: Json<V>): set<string>
  {
    if j.JObject? then j.fields.Keys else {}
  }

  /** The value stored under `key` when `j` is an object holding it. */
  function Field<V>(j: Json<V>, key: string): Json<V>
    requires j.JObject? && key in j.fields
  {
    j.fields[key]
  }

  /** An array of numbers read back as the numbers, in order. */
  function AsNumbers<V>(j: Json<V>): Option<seq<V>>
  {
    if j.JArray? && forall i :: 0 <= i < |j.items| ==> j.items[i].JNumber? then
      Some(seq(|j.items|, i requires 0 <= i < |j.items| && j.items[i].JNumber? => j.items[i].num))
    else
      None
  }

  /** An array of integers read back as the integers, in order. */
  function AsInts<V>(j: Json<V>): Option<seq<int>>
  {
    if j.JArray? && forall i :: 0 <= i < |j.items| ==> j.items[i].JInt? then
      Some(seq(|j.items|, i requires 0 <= i < |j.items| && j.items[i].JInt? => j.items[i].n))
    else
      None
  }

  /** An array of strings read back as the strings, in order. */
  function AsStrings<V>(j: Json<V>): Option<seq<string>>
  {
    if j.JArray? && forall i :: 0 <= i < |j.items| ==> j.items[i].JString? then
      Some(seq(|j.items|, i requires 0 <= i < |j.items| && j.items[i].JString? => j.items[i].str))
    else
      None
  }
}
