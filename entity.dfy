/**
 * What every Athena entity's constructor does, whatever its platform:
 * derive a unique id from the config entry id and the entity's type key,
 * and a device-info record read once from the snapshot present at
 * construction time.
 */
module Entity {
  import opened Wrappers
  import opened DeviceData

  const DOMAIN: string := "athena"
  const UNKNOWN: Value := Text("Unknown")

  datatype DeviceInfo = DeviceInfo(
    identifiers: set<(string, string)>,
    name: string,
    manufacturer: string,
    model: Value,
    swVersion: Value)

  /** The attributes the shared constructor sets, with the entry of the coordinator it was built on. */
  datatype Base = Base(entryId: string, uniqueId: string, deviceInfo: DeviceInfo)

  function UniqueId(entryId: string, typeKey: string): string
  {
    entryId + "_" + typeKey
  }

  /** Two entities of one entry get one unique id only if they have one type key. */
  lemma UniqueIdInjective(entryId: string, k1: string, k2: string)
    ensures UniqueId(entryId, k1) == UniqueId(entryId, k2) ==> k1 == k2
  {
    var n := |entryId| + 1;
    if UniqueId(entryId, k1) == UniqueId(entryId, k2) {
      assert UniqueId(entryId, k1)[n..] == k1;
      assert UniqueId(entryId, k2)[n..] == k2;
    }
  }

  predicate Distinct(s: seq<string>)
  {
    forall i, j :: 0 <= i < j < |s| ==> s[i] != s[j]
  }

  /**
   * `data.get("device_info", {}).get(...)` can be evaluated: the nested
   * value is absent or is a mapping. Any other value has no `get` and the
   * constructor raises.
   */
  predicate DeviceInfoReadable(s: Snapshot)
  {
    "device_info" !in s || s["device_info"].Dict?
  }

  /** `data.get("device_info", {}).get(field, "Unknown")`. */
  function InfoField(s: Snapshot, field: string): (v: Value)
    requires DeviceInfoReadable(s)
    ensures "device_info" in s && field in s["device_info"].entries ==> v == s["device_info"].entries[field]
    ensures "device_info" !in s || field !in s["device_info"].entries ==> v == UNKNOWN
  {
    Get(Get(s, "device_info", Dict(map[])).entries, field, UNKNOWN)
  }

  /** The shared constructor; None stands for the AttributeError it raises on an unreadable device_info. */
  function NewBase(c: Coordinator, typeKey: string): (r: Option<Base>)
    requires c.data.Some?
    ensures r.Some? <==> DeviceInfoReadable(c.data.value)
    ensures r.Some? ==> r.value.entryId == c.entryId
    ensures r.Some? ==> r.value.uniqueId == c.entryId + "_" + typeKey
    ensures r.Some? ==> r.value.deviceInfo.identifiers == {(DOMAIN, c.entryId)}
    ensures r.Some? ==> r.value.deviceInfo.name == "Athena Device" && r.value.deviceInfo.manufacturer == "Athena"
    ensures r.Some? ==> r.value.deviceInfo.model == InfoField(c.data.value, "model")
    ensures r.Some? ==> r.value.deviceInfo.swVersion == InfoField(c.data.value, "firmware_version")
  {
    var s := c.data.value;
    if DeviceInfoReadable(s) then
      Some(Base(
        c.entryId,
        UniqueId(c.entryId, typeKey),
        DeviceInfo({(DOMAIN, c.entryId)}, "Athena Device", "Athena",
          InfoField(s, "model"), InfoField(s, "firmware_version"))))
    else
      None
  }

  /** Entities of one entry built from one snapshot share one device record, whatever their type. */
  lemma DeviceInfoShared(c: Coordinator, k1: string, k2: string)
    requires c.data.Some? && DeviceInfoReadable(c.data.value)
    ensures NewBase(c, k1).value.deviceInfo == NewBase(c, k2).value.deviceInfo
  {
  }

  /** Distinct type keys give distinct unique ids within one entry. */
  lemma DistinctKeysDistinctIds(entryId: string, keys: seq<string>)
    requires Distinct(keys)
    ensures Distinct(seq(|keys|, i requires 0 <= i < |keys| => UniqueId(entryId, keys[i])))
  {
    var ids := seq(|keys|, i requires 0 <= i < |keys| => UniqueId(entryId, keys[i]));
    forall i, j | 0 <= i < j < |ids| ensures ids[i] != ids[j] {
      UniqueIdInjective(entryId, keys[i], keys[j]);
    }
  }
}
