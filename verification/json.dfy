/** JSON values, as `serde_json::Value` holds them. */
module Json {
  import opened Common

  /** `Float` stands for every number that is not an integer token. */
  datatype Json =
    | Null
    | Bool(b: bool)
    | Int(n: int)
    | Float(r: real)
    | Str(s: string)
    | Arr(items: seq<Json>)
    | Obj(fields: map<string, Json>)

  /** `value.get(key)`: absent unless the value is an object with that key. */
  function Get(j: Json, key: string): Option<Json> {
    if j.Obj? && key in j.fields then Some(j.fields[key]) else None
  }

  function GetStr(j: Json, key: string): Option<string> {
    match Get(j, key)
    case Some(Str(s)) => Some(s)
    case _ => None
  }

  const MAX_U64: nat := 0xFFFF_FFFF_FFFF_FFFF

  /** `as_u64`: integers that fit an unsigned 64-bit word. */
  function AsU64(j: Json): Option<nat> {
    if j.Int? && 0 <= j.n <= MAX_U64 then Some(j.n) else None
  }

  function GetU64(j: Json, key: string): Option<nat> {
    match Get(j, key)
    case Some(v) => AsU64(v)
    case None => None
  }
}
