/** JSON values, as far as the saved state uses them. */
module Json {
  import opened Types

  /** Printed(m) stands for a string that holds the printed form of a message packet. */
  datatype Json =
    | Null
    | Bool(b: bool)
    | UInt(n: nat)
    | Str(s: string)
    | Printed(m: Message)
    | Arr(items: seq<Json>)
    | Obj(fields: map<string, Json>)

  function Get(v: Json, key: string): Json {
    if v.Obj? && key in v.fields then v.fields[key] else Null
  }

  /** What iterating over a value yields; nothing for null. */
  function Items(v: Json): seq<Json> {
    if v.Arr? then v.items else []
  }

  function AsUInt(v: Json): nat { if v.UInt? then v.n else 0 }
  function AsString(v: Json): string { if v.Str? then v.s else "" }
  function AsBool(v: Json): bool { if v.Bool? then v.b else false }
  function AsMessage(v: Json): Option<Message> { if v.Printed? then Some(v.m) else None }
}
