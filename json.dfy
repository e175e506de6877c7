/**
 * The JSON values the plugin receives from the scripting layer, as org.json
 * (the copy shipped with Android) hands them over, and the two argument
 * readers the plugin uses on a JSONArray of arguments.
 */
module Json {
  import opened Wrappers

  /**
   * A JSON value. Strings and objects are what the plugin distinguishes;
   * every other value (number, boolean, JSONObject.NULL, array) is kept only
   * as the text its `toString()` gives. An object also keeps that text,
   * because `getString` on an object argument returns it.
   */
  datatype JsonValue =
    | JString(s: string)
    | JObject(members: seq<Member>, text: string)
    | JOther(text: string)

  /** One key/value pair of a JSON object, in the object's iteration order. */
  datatype Member = Member(key: string, value: JsonValue)

  /** The text org.json's `getString` gives for a value that is present. */
  function Text(v: JsonValue): string
  {
    match v
    case JString(s) => s
    case JObject(_, t) => t
    case JOther(t) => t
  }

  /**
   * `JSONArray.getString(i)`: throws JSONException (here `None`) only when
   * the index is out of range; any present value is turned into its text.
   */
  function ArgString(args: seq<JsonValue>, i: nat): Option<string>
  {
    if i < |args| then Some(Text(args[i])) else None
  }

  /**
   * `JSONArray.getJSONObject(i)`: throws JSONException (here `None`) when the
   * index is out of range or the value there is not an object.
   */
  function ArgObject(args: seq<JsonValue>, i: nat): Option<seq<Member>>
  {
    if i < |args| && args[i].JObject? then Some(args[i].members) else None
  }
}
