/**
 * What travels over one WebSocket of the registry: inbound frames, which
 * the manager decodes as JSON, and the two outbound keep-alive frames it
 * writes itself.
 */
module Wire {
  import opened Wrappers

  /** A decoded JSON value (numbers are modelled as integers). */
  datatype Value =
    | Null
    | Bool(b: bool)
    | Num(n: int)
    | Str(s: string)
    | List(items: seq<Value>)
    | Obj(fields: map<string, Value>)

  /** An inbound frame: text that `JSON.parse` rejects, or the value it yields. */
  datatype Inbound = Malformed | Parsed(data: Value)

  /** Outbound frames the manager sends on its own: `{"type":"ping"}` and `{"type":"pong"}`. */
  datatype Outbound = Ping | Pong

  /**
   * Reading a property: `data.f`.  Only an object has named properties;
   * every other non-null value yields `undefined` (`None`).
   */
  function Field(v: Value, f: string): (r: Option<Value>)
    ensures r.Some? <==> v.Obj? && f in v.fields
    ensures r.Some? ==> r.value == v.fields[f]
  {
    if v.Obj? && f in v.fields then Some(v.fields[f]) else None
  }

  /** JavaScript truthiness of a property read (`undefined` is falsy). */
  predicate Truthy(o: Option<Value>) {
    match o
    case None => false
    case Some(Null) => false
    case Some(Bool(b)) => b
    case Some(Num(n)) => n != 0
    case Some(Str(s)) => s != ""
    case Some(List(_)) => true
    case Some(Obj(_)) => true
  }

  /** `data.type === tag`: strict equality with a string. */
  predicate HasType(v: Value, tag: string) {
    Field(v, "type") == Some(Str(tag))
  }
}
