/**
 * Decoded JSON values as the handlers receive them from `json.loads`,
 * together with the few Python operations the handlers apply to them:
 * truthiness, `dict.get`, `len` and the type name quoted in error text.
 */
module JsonValues {

  /** A decoded JSON document. Objects keep their members in order;
      numbers are integers. */
  datatype Json =
    | JNull
    | JBool(b: bool)
    | JNum(n: int)
    | JStr(s: string)
    | JArr(elems: seq<Json>)
    | JObj(members: seq<(string, Json)>)

  /** Python truthiness (`if value:`): None, False, 0 and empty containers are false. */
  predicate Truthy(j: Json) {
    match j
    case JNull => false
    case JBool(b) => b
    case JNum(n) => n != 0
    case JStr(s) => |s| > 0
    case JArr(xs) => |xs| > 0
    case JObj(ms) => |ms| > 0
  }

  /** `key in obj` for an object's members. */
  predicate HasKey(members: seq<(string, Json)>, key: string) {
    exists i | 0 <= i < |members| :: members[i].0 == key
  }

  /** `obj.get(key, default)`: the value of the member named `key`, or the default
      when there is none. A repeated key yields its last value, as `json.loads` keeps it. */
  function Lookup(members: seq<(string, Json)>, key: string, default: Json): (v: Json)
    ensures !HasKey(members, key) ==> v == default
    ensures HasKey(members, key) ==> exists i | 0 <= i < |members| :: members[i] == (key, v)
  {
    if |members| == 0 then default
    else
      var last := members[|members| - 1];
      if last.0 == key then last.1
      else
        var v := Lookup(members[..|members| - 1], key, default);
        assert forall i | 0 <= i < |members| - 1 :: members[..|members| - 1][i] == members[i];
        v
  }

  /** A repeated key reads as its last occurrence: no later member has that key. */
  lemma {:induction false} LookupTakesLast(members: seq<(string, Json)>, key: string, default: Json)
    requires HasKey(members, key)
    ensures exists i | 0 <= i < |members| ::
      members[i] == (key, Lookup(members, key, default)) && forall j | i < j < |members| :: members[j].0 != key
  {
    var n := |members|;
    var v := Lookup(members, key, default);
    if members[n - 1].0 == key {
      assert members[n - 1] == (key, v);
    } else {
      var init := members[..n - 1];
      assert HasKey(init, key) by {
        var k :| 0 <= k < n && members[k].0 == key;
        assert init[k] == members[k];
      }
      LookupTakesLast(init, key, default);
      var i :| 0 <= i < |init| && init[i] == (key, Lookup(init, key, default))
        && forall j | i < j < |init| :: init[j].0 != key;
      assert members[i] == (key, v);
      forall j | i < j < n
        ensures members[j].0 != key
      {
        if j < n - 1 {
          assert init[j] == members[j];
        }
      }
    }
  }

  /** Whether Python's `len` is defined on the value (str, list and dict). */
  predicate Sized(j: Json) {
    j.JStr? || j.JArr? || j.JObj?
  }

  /** The Python type name of the decoded value, as it appears in exception text. */
  function TypeName(j: Json): string {
    match j
    case JNull => "NoneType"
    case JBool(_) => "bool"
    case JNum(_) => "int"
    case JStr(_) => "str"
    case JArr(_) => "list"
    case JObj(_) => "dict"
  }

  /** A one-member object such as `{"detail": ...}`. */
  function Single(key: string, value: Json): (j: Json)
    ensures j.JObj? && Lookup(j.members, key, JNull) == value
  {
    JObj([(key, value)])
  }
}
