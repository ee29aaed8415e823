/** The binary sensor platform: three flag projections of the snapshot. */
module BinarySensor {
  import opened Wrappers
  import opened DeviceData
  import Entity

  datatype BinarySensorType = Online | Fault | Maintenance
  {
    function Key(): string
    {
      match this
      case Online => "online"
      case Fault => "fault"
      case Maintenance => "maintenance"
    }
  }

  /** The order in which setup creates the binary sensors. */
  const ORDER: seq<BinarySensorType> := [Online, Fault, Maintenance]

  datatype BinarySensorEntity = BinarySensorEntity(sensorType: BinarySensorType, base: Entity.Base)

  /** `AthenaBinarySensorEntity.__init__`; None when it raises on an unreadable device_info. */
  function New(c: Coordinator, t: BinarySensorType): (r: Option<BinarySensorEntity>)
    requires c.data.Some?
    ensures r.Some? <==> Entity.DeviceInfoReadable(c.data.value)
    ensures r.Some? ==> r.value.sensorType == t
    ensures r.Some? ==> r.value.base.entryId == c.entryId
    ensures r.Some? ==> r.value.base.uniqueId == c.entryId + "_" + t.Key()
    ensures r.Some? ==> r.value.base.deviceInfo.model == Entity.InfoField(c.data.value, "model")
    ensures r.Some? ==> r.value.base.deviceInfo.swVersion == Entity.InfoField(c.data.value, "firmware_version")
  {
    match Entity.NewBase(c, t.Key())
    case Some(b) => Some(BinarySensorEntity(t, b))
    case None => None
  }

  /** `is_on`: the flag in the current snapshot, or None when it is absent. */
  function IsOn(e: BinarySensorEntity, c: Coordinator): (v: Value)
    requires c.data.Some?
    requires c.entryId == e.base.entryId
    ensures e.sensorType.Key() in c.data.value ==> v == c.data.value[e.sensorType.Key()]
    ensures e.sensorType.Key() !in c.data.value ==> v == Null
  {
    Get(c.data.value, e.sensorType.Key(), Null)
  }

  /** `async_setup_entry`: the binary sensors added for one entry, None when a constructor raises. */
  function SetupEntry(c: Coordinator): (r: Option<seq<BinarySensorEntity>>)
    requires c.data.Some?
    ensures r.Some? <==> Entity.DeviceInfoReadable(c.data.value)
    ensures r.Some? ==> |r.value| == |ORDER| == 3
    ensures r.Some? ==> forall i :: 0 <= i < |ORDER| ==> r.value[i] == New(c, ORDER[i]).value
  {
    if Entity.DeviceInfoReadable(c.data.value) then
      Some([New(c, Online).value, New(c, Fault).value, New(c, Maintenance).value])
    else
      None
  }

  function Keys(): seq<string>
  {
    seq(|ORDER|, i requires 0 <= i < |ORDER| => ORDER[i].Key())
  }

  /** The three binary sensors of one entry, in order, carry three distinct unique ids. */
  lemma UniqueIdsDistinct(c: Coordinator)
    requires c.data.Some? && SetupEntry(c).Some?
    ensures forall i :: 0 <= i < 3 ==> SetupEntry(c).value[i].sensorType == ORDER[i]
    ensures forall i, j :: 0 <= i < j < 3 ==>
      SetupEntry(c).value[i].base.uniqueId != SetupEntry(c).value[j].base.uniqueId
  {
  }
}
