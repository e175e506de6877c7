/**
 * `getStringMapFromJSONObject`: copies a JSON object into a string-to-string
 * map, and fails with ClassCastException on the first value that is not a
 * string (the `(String)` cast).
 */
module StringMap {
  import opened Wrappers
  import opened Json

  /** Every value of the object is a JSON string. */
  predicate AllStrings(obj: seq<Member>)
  {
    forall i :: 0 <= i < |obj| ==> obj[i].value.JString?
  }

  /** The keys of the object. */
  function Keys(obj: seq<Member>): set<string>
  {
    set i | 0 <= i < |obj| :: obj[i].key
  }

  /** No later member of `obj` has the key of member `i`, so a `put` of member `i` is the one that stays. */
  predicate IsLastBinding(obj: seq<Member>, i: nat)
    requires i < |obj|
  {
    forall k :: i < k < |obj| ==> obj[k].key != obj[i].key
  }

  /** What a JSONObject guarantees: no key occurs twice. */
  predicate DistinctKeys(obj: seq<Member>)
  {
    forall i, j :: 0 <= i < j < |obj| ==> obj[i].key != obj[j].key
  }

  /**
   * Walks the members in order, putting each into the map; the map is only
   * returned when the walk finishes, so a failure never yields a partial map.
   */
  method GetStringMapFromJsonObject(obj: seq<Member>) returns (r: Result<map<string, string>>)
    ensures r.Ok? <==> AllStrings(obj)
    ensures r.Err? ==> r.error == "ClassCastException"
    ensures r.Ok? ==> r.value.Keys == Keys(obj)
    ensures r.Ok? ==> forall i :: 0 <= i < |obj| && IsLastBinding(obj, i) ==> r.value[obj[i].key] == obj[i].value.s
    ensures r.Ok? && DistinctKeys(obj) ==> forall i :: 0 <= i < |obj| ==> r.value[obj[i].key] == obj[i].value.s
  {
    var m: map<string, string> := map[];
    var i := 0;
    while i < |obj|
      invariant 0 <= i <= |obj|
      invariant forall j :: 0 <= j < i ==> obj[j].value.JString?
      invariant m.Keys == Keys(obj[..i])
      invariant forall j :: 0 <= j < i && IsLastBinding(obj[..i], j) ==> m[obj[j].key] == obj[j].value.s
    {
      var member := obj[i];
      if !member.value.JString? {
        return Err("ClassCastException");
      }
      m := m[member.key := member.value.s];
      i := i + 1;
    }
    assert obj[..i] == obj;
    r := Ok(m);
  }
}
