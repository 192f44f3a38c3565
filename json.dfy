/**
 * JSON-like values: the shape of component props, dry-run results and
 * handler parameters. Objects are ordered association lists (see Assoc).
 */
module Json {
  import opened Wrappers
  import Assoc

  datatype Json =
    | Str(s: string)
    | Num(n: int)
    | Bool(b: bool)
    | Null
    | Arr(items: seq<Json>)
    | Obj(entries: seq<(string, Json)>)

  /** A plain object's own entries, in insertion order. */
  type Props = seq<(string, Json)>

  /** JavaScript truthiness: `""`, `0`, `false` and `null` are falsy; arrays and objects never are. */
  predicate Truthy(v: Json)
  {
    match v
    case Str(s) => s != ""
    case Num(n) => n != 0
    case Bool(b) => b
    case Null => false
    case Arr(_) => true
    case Obj(_) => true
  }

  /** `typeof v`; note that `typeof null` and `typeof []` are both "object". */
  function TypeOf(v: Json): (t: string)
    ensures t == "object" <==> (v.Null? || v.Arr? || v.Obj?)
    ensures t == "string" <==> v.Str?
  {
    match v
    case Str(_) => "string"
    case Num(_) => "number"
    case Bool(_) => "boolean"
    case _ => "object"
  }

  /**
   * Member access `v.key` on any value: only an object has named members
   * here; every other value yields `undefined`.
   */
  function Member(v: Json, key: string): (r: Option<Json>)
    ensures r.Some? ==> v.Obj? && key in Assoc.Keys(v.entries)
  {
    if v.Obj? then Assoc.Get(v.entries, key) else None
  }

  /** `v.key`, read as a condition: present and truthy. */
  function TruthyMember(v: Json, key: string): (r: Option<Json>)
    ensures r.Some? <==> Member(v, key).Some? && Truthy(Member(v, key).value)
    ensures r.Some? ==> r == Member(v, key)
  {
    match Member(v, key)
    case Some(x) => if Truthy(x) then Some(x) else None
    case None => None
  }
}
