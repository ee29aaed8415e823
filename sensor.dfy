/** The sensor platform: five read-only projections of the snapshot. */
module Sensor {
  import opened Wrappers
  import opened DeviceData
  import Entity

  datatype SensorType = Temperature | Humidity | Pressure | SignalStrength | Status
  {
    function Key(): string
    {
      match this
      case Temperature => "temperature"
      case Humidity => "humidity"
      case Pressure => "pressure"
      case SignalStrength => "signal_strength"
      case Status => "status"
    }
  }

  /** The order in which setup creates the sensors. */
  const ORDER: seq<SensorType> := [Temperature, Humidity, Pressure, SignalStrength, Status]

  datatype SensorEntity = SensorEntity(sensorType: SensorType, base: Entity.Base)

  /** `AthenaSensorEntity.__init__`; None when it raises on an unreadable device_info. */
  function New(c: Coordinator, t: SensorType): (r: Option<SensorEntity>)
    requires c.data.Some?
    ensures r.Some? <==> Entity.DeviceInfoReadable(c.data.value)
    ensures r.Some? ==> r.value.sensorType == t
    ensures r.Some? ==> r.value.base.entryId == c.entryId
    ensures r.Some? ==> r.value.base.uniqueId == c.entryId + "_" + t.Key()
    ensures r.Some? ==> r.value.base.deviceInfo.model == Entity.InfoField(c.data.value, "model")
    ensures r.Some? ==> r.value.base.deviceInfo.swVersion == Entity.InfoField(c.data.value, "firmware_version")
  {
    match Entity.NewBase(c, t.Key())
    case Some(b) => Some(SensorEntity(t, b))
    case None => None
  }

  /** `native_value`: the field of the current snapshot, or None when it is absent. */
  function NativeValue(e: SensorEntity, c: Coordinator): (v: Value)
    requires c.data.Some?
    requires c.entryId == e.base.entryId
    ensures e.sensorType.Key() in c.data.value ==> v == c.data.value[e.sensorType.Key()]
    ensures e.sensorType.Key() !in c.data.value ==> v == Null
  {
    Get(c.data.value, e.sensorType.Key(), Null)
  }

  /** `async_setup_entry`: the sensors added for one entry, None when a constructor raises. */
  function SetupEntry(c: Coordinator): (r: Option<seq<SensorEntity>>)
    requires c.data.Some?
    ensures r.Some? <==> Entity.DeviceInfoReadable(c.data.value)
    ensures r.Some? ==> |r.value| == |ORDER| == 5
    ensures r.Some? ==> forall i :: 0 <= i < |ORDER| ==> r.value[i] == New(c, ORDER[i]).value
  {
    if Entity.DeviceInfoReadable(c.data.value) then
      Some([New(c, Temperature).value, New(c, Humidity).value, New(c, Pressure).value,
            New(c, SignalStrength).value, New(c, Status).value])
    else
      None
  }

  function Keys(): seq<string>
  {
    seq(|ORDER|, i requires 0 <= i < |ORDER| => ORDER[i].Key())
  }

  lemma KeysDistinct()
    ensures Entity.Distinct(Keys())
  {
  }

  /** The five sensors of one entry, in order, carry five distinct unique ids. */
  lemma UniqueIdsDistinct(c: Coordinator)
    requires c.data.Some? && SetupEntry(c).Some?
    ensures forall i :: 0 <= i < 5 ==> SetupEntry(c).value[i].sensorType == ORDER[i]
    ensures forall i, j :: 0 <= i < j < 5 ==>
      SetupEntry(c).value[i].base.uniqueId != SetupEntry(c).value[j].base.uniqueId
  {
    var es := SetupEntry(c).value;
    var keys := Keys();
    KeysDistinct();
    Entity.DistinctKeysDistinctIds(c.entryId, keys);
    var ids := seq(|keys|, i requires 0 <= i < |keys| => Entity.UniqueId(c.entryId, keys[i]));
    assert forall i :: 0 <= i < 5 ==> es[i].base.uniqueId == ids[i];
  }

  /**
   * The device record is fixed when the entity is built, while the value
   * is read from whatever snapshot the coordinator holds at call time: a
   * later snapshot that reports another model gives a sensor built from
   * it another record, yet the sensor built earlier reads the later
   * snapshot's value.
   */
  lemma DeviceInfoFixedValueLive(c: Coordinator, later: Coordinator, t: SensorType)
    requires c.data.Some? && later.data.Some? && later.entryId == c.entryId
    requires Entity.DeviceInfoReadable(c.data.value) && Entity.DeviceInfoReadable(later.data.value)
    requires Entity.InfoField(c.data.value, "model") != Entity.InfoField(later.data.value, "model")
    ensures New(c, t).value.base.uniqueId == New(later, t).value.base.uniqueId
    ensures New(c, t).value.base.deviceInfo != New(later, t).value.base.deviceInfo
    ensures t.Key() in later.data.value ==> NativeValue(New(c, t).value, later) == later.data.value[t.Key()]
  {
  }
}
