/**
 * JSON values as they cross the socket and as they appear in the schema document.
 * An object keeps its members in order, as a Python dict serialised by send_json does.
 */
module JsonValues {
  import opened Wrappers

  datatype Json =
    | Null
    | Bool(b: bool)
    | Num(n: int)
    | Str(s: string)
    | Arr(items: seq<Json>)
    | Obj(members: seq<Member>)

  datatype Member = Member(key: string, value: Json)

  /** The value of the first member named `key`, if any. */
  function Find(members: seq<Member>, key: string): Option<Json>
  {
    if members == [] then None
    else if members[0].key == key then Some(members[0].value)
    else Find(members[1..], key)
  }

  /** `j[key]` on a JSON object; nothing for any other kind of value. */
  function Get(j: Json, key: string): Option<Json>
  {
    match j
    case Obj(members) => Find(members, key)
    case _ => None
  }

  /** The member names of an object, in order. */
  function Keys(members: seq<Member>): (ks: seq<string>)
    ensures |ks| == |members|
    ensures forall i :: 0 <= i < |members| ==> ks[i] == members[i].key
  {
    if members == [] then [] else [members[0].key] + Keys(members[1..])
  }
}
