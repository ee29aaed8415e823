/**
 * The data an entity platform sees: the coordinator's current snapshot,
 * a JSON-like mapping from field name to value, and the handle the
 * entities hold on the coordinator (its config entry id and its data).
 */
module DeviceData {
  import opened Wrappers

  /** A snapshot value, kept opaque: floats are carried as their literal text and never computed with. */
  datatype Value =
    | Null
    | Bool(b: bool)
    | Int(i: int)
    | Float(literal: string)
    | Text(s: string)
    | Dict(entries: map<string, Value>)

  type Snapshot = map<string, Value>

  /** Python's `d.get(key, default)`. */
  function Get(d: map<string, Value>, key: string, default: Value): (v: Value)
    ensures key in d ==> v == d[key]
    ensures key !in d ==> v == default
  {
    if key in d then d[key] else default
  }

  /**
   * What an entity holds: the config entry id, the coordinator's data
   * (None until the first refresh succeeded) and whether a refresh has
   * been requested since.
   */
  datatype Coordinator = Coordinator(entryId: string, data: Option<Snapshot>, refreshRequested: bool)

  /** `async_request_refresh`: asks the coordinator to poll again; the snapshot itself is untouched. */
  function RequestRefresh(c: Coordinator): (r: Coordinator)
    ensures r.refreshRequested
    ensures r.data == c.data && r.entryId == c.entryId
  {
    c.(refreshRequested := true)
  }

  /** The simulated payload the coordinator returns while no device is queried. */
  function Placeholder(): (s: Snapshot)
    ensures "status" in s && "device_info" in s && s["device_info"].Dict?
    ensures "threshold" !in s && "interval" !in s && "mode" !in s && "profile" !in s
  {
    map[
      "status" := Text("online"),
      "temperature" := Float("23.5"),
      "humidity" := Float("45.2"),
      "pressure" := Float("1013.25"),
      "signal_strength" := Int(-67),
      "power" := Bool(true),
      "auto_mode" := Bool(true),
      "alarm" := Bool(false),
      "online" := Bool(true),
      "fault" := Bool(false),
      "maintenance" := Bool(false),
      "device_info" := Dict(map[
        "firmware_version" := Text("1.2.3"),
        "hardware_version" := Text("2.1"),
        "serial_number" := Text("ATH123456789"),
        "model" := Text("Athena Controller")
      ])
    ]
  }
}
