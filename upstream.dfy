/** The upstream platform's replies, as the two workflows see them.

    A reply is the JSON value that the request helper hands back: a list of
    objects, an object (an error dictionary, an empty body, or a single
    resource), or a bare string, number, boolean or null. Member values are
    kept whatever their JSON type; only strings are looked into. */
module Upstream {

  datatype Option<+T> = None | Some(value: T)

  datatype Result<+T, +E> = Ok(value: T) | Err(error: E)

  /** A member value. Strings are what the workflows compare and format;
      numbers keep their literal text, and arrays and objects their JSON text. */
  datatype Value =
    | Str(text: string)
    | Number(literal: string)
    | Boolean(truth: bool)
    | Null
    | Composite(json: string)

  /** How a value reads when formatted into a string (`f"{v}"`): Python's
      `str` of the decoded value. */
  function Text(v: Value): string
  {
    match v
    case Str(s) => s
    case Number(lit) => lit
    case Boolean(b) => if b then "True" else "False"
    case Null => "None"
    case Composite(json) => json
  }

  /** One JSON object from a list reply. */
  datatype Record = Record(fields: map<string, Value>) {
    /** `record.get(key)`: the member's value, or None when it is absent. */
    function Get(key: string): Option<Value>
    {
      if key in fields then Some(fields[key]) else None
    }
  }

  /** A parsed reply body. A top-level array is always a `List` and a
      top-level object always an `Object`: a `Scalar` is a bare string,
      number, boolean or null, never a `Composite`, which occurs only as a
      member value. */
  datatype Reply =
    | List(items: seq<Record>)
    | Object(members: map<string, Value>)
    | Scalar(value: Value)

  /** The upstream endpoints the two workflows read, each by the text its
      identifier takes in the endpoint path. */
  datatype Endpoint =
    | OrganizationNetworks(organizationId: string)
    | OrganizationUplinkStatuses(organizationId: string)
    | NetworkDevices(networkId: string)
    | NetworkHealthAlerts(networkId: string)
    | DeviceStatuses(serial: string)
    | DeviceUplink(serial: string)

  /** The platform as the workflows see it: the reply the request helper
      returns for a GET of each endpoint. */
  type Platform = Endpoint -> Reply

  /** `u.get("status") != "active"`: an absent or non-string status counts as inactive. */
  predicate NotActive(u: Record)
  {
    u.Get("status") != Some(Str("active"))
  }

  /** `d.get("status") != "online"`: an absent or non-string status counts as offline. */
  predicate NotOnline(d: Record)
  {
    d.Get("status") != Some(Str("online"))
  }

  /** `len(x) if isinstance(x, list) else 0`. */
  function ListLength(r: Reply): nat
  {
    if r.List? then |r.items| else 0
  }

  /** Python truthiness of an optional string argument: None and "" are false. */
  predicate Given(arg: Option<string>)
  {
    arg.Some? && arg.value != ""
  }
}
