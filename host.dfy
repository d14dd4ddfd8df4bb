/**
  The host environment the cards run in: attribute and payload values,
  device-state snapshots, the service-call primitive and UI events.
  The host's `states` table is read-only; `callService` is an append-only
  log of the calls made.
 */
module Host {

  datatype Option<+T> = None | Some(value: T)

  /** A JSON-like attribute, configuration or payload value. */
  datatype Value =
    | Str(s: string)
    | Num(n: real)
    | Bool(b: bool)
    | StrList(items: seq<string>)
    | Obj(fields: map<string, Value>)

  /** JavaScript truthiness of a present value (an absent key reads as `undefined`, which is falsy). */
  predicate Truthy(v: Value) {
    match v
    case Str(s) => s != ""
    case Num(n) => n != 0.0
    case Bool(b) => b
    case StrList(_) => true
    case Obj(_) => true
  }

  /** `m[key]`, `None` when the key is undefined. */
  function Get(m: map<string, Value>, key: string): (r: Option<Value>)
    ensures r.Some? <==> key in m
    ensures r.Some? ==> r.value == m[key]
  {
    if key in m then Some(m[key]) else None
  }

  /** `m[key]` is defined and truthy. */
  predicate TruthyAt(m: map<string, Value>, key: string) {
    key in m && Truthy(m[key])
  }

  /** `m[key] || d` for a numeric attribute: a truthy number, else the default. */
  function NumOr(m: map<string, Value>, key: string, d: real): (r: real)
    ensures TruthyAt(m, key) && m[key].Num? ==> r == m[key].n
    ensures !(key in m && m[key].Num?) ==> r == d
  {
    if key in m && m[key].Num? && Truthy(m[key]) then m[key].n else d
  }

  /** `m[key] || d` for a string attribute: a non-empty string, else the default. */
  function StrOr(m: map<string, Value>, key: string, d: string): (r: string)
    ensures key in m && m[key].Str? && m[key].s != "" ==> r == m[key].s
    ensures !(key in m && m[key].Str?) ==> r == d
  {
    if key in m && m[key].Str? && m[key].s != "" then m[key].s else d
  }

  /** A `hass.states[id]` entry: the entity's state string and its attributes. */
  datatype DeviceState = DeviceState(entityId: string, state: string, attributes: map<string, Value>)

  /** One `hass.callService(domain, service, data)`. */
  datatype Call = Call(domain: string, service: string, data: map<string, Value>)

  /** The `hass` object: a fixed snapshot of entity states and the log of service calls. */
  class Hass {
    const states: map<string, DeviceState>
    var calls: seq<Call>

    constructor (states: map<string, DeviceState>)
      ensures this.states == states && calls == []
    {
      this.states := states;
      calls := [];
    }

    method CallService(domain: string, service: string, data: map<string, Value>)
      modifies this
      ensures calls == old(calls) + [Call(domain, service, data)]
    {
      calls := calls + [Call(domain, service, data)];
    }
  }

  /** A UI event; only whether its propagation was stopped is kept. */
  class Event {
    var stopped: bool

    constructor ()
      ensures !stopped
    {
      stopped := false;
    }

    method StopPropagation()
      modifies this
      ensures stopped
    {
      stopped := true;
    }
  }
}
