/** The number platform: threshold and interval, read from the snapshot with fixed defaults. */
module Number {
  import opened Wrappers
  import opened DeviceData
  import Entity

  datatype NumberType = Threshold | Interval
  {
    function Key(): string
    {
      match this
      case Threshold => "threshold"
      case Interval => "interval"
    }

    /** The value shown while the snapshot has no such field. */
    function Default(): int
    {
      match this
      case Threshold => 50
      case Interval => 60
    }

    function Min(): int
    {
      match this
      case Threshold => 0
      case Interval => 10
    }

    function Max(): int
    {
      match this
      case Threshold => 100
      case Interval => 300
    }

    function Step(): int
    {
      match this
      case Threshold => 1
      case Interval => 10
    }
  }

  /** The order in which setup creates the number entities. */
  const ORDER: seq<NumberType> := [Threshold, Interval]

  datatype NumberEntity = NumberEntity(numberType: NumberType, base: Entity.Base)

  /** `AthenaNumberEntity.__init__`; None when it raises on an unreadable device_info. */
  function New(c: Coordinator, t: NumberType): (r: Option<NumberEntity>)
    requires c.data.Some?
    ensures r.Some? <==> Entity.DeviceInfoReadable(c.data.value)
    ensures r.Some? ==> r.value.numberType == t
    ensures r.Some? ==> r.value.base.entryId == c.entryId
    ensures r.Some? ==> r.value.base.uniqueId == c.entryId + "_" + t.Key()
    ensures r.Some? ==> r.value.base.deviceInfo.model == Entity.InfoField(c.data.value, "model")
    ensures r.Some? ==> r.value.base.deviceInfo.swVersion == Entity.InfoField(c.data.value, "firmware_version")
  {
    match Entity.NewBase(c, t.Key())
    case Some(b) => Some(NumberEntity(t, b))
    case None => None
  }

  /** `native_value`: the field of the current snapshot, as is (no clamping), or the default. */
  function NativeValue(e: NumberEntity, c: Coordinator): (v: Value)
    requires c.data.Some?
    requires c.entryId == e.base.entryId
    ensures e.numberType.Key() in c.data.value ==> v == c.data.value[e.numberType.Key()]
    ensures e.numberType.Key() !in c.data.value ==> v == Int(e.numberType.Default())
  {
    Get(c.data.value, e.numberType.Key(), Int(e.numberType.Default()))
  }

  /** `async_set_native_value`: the value is not sent anywhere yet, only a refresh is requested. */
  function SetNativeValue(e: NumberEntity, c: Coordinator, value: Value): (r: Coordinator)
    ensures r.data == c.data && r.entryId == c.entryId && r.refreshRequested
  {
    RequestRefresh(c)
  }

  /** Setting a value ignores the value and does not change what the entity reports. */
  lemma SetIgnoresValue(e: NumberEntity, c: Coordinator, v1: Value, v2: Value)
    requires c.data.Some? && c.entryId == e.base.entryId
    ensures SetNativeValue(e, c, v1) == SetNativeValue(e, c, v2)
    ensures NativeValue(e, SetNativeValue(e, c, v1)) == NativeValue(e, c)
  {
  }

  /** Each default lies inside the declared range and on a step of it. */
  lemma DefaultsOnScale(t: NumberType)
    ensures t.Min() <= t.Default() <= t.Max()
    ensures t.Step() > 0 && (t.Default() - t.Min()) % t.Step() == 0
  {
  }

  /** The bounds are metadata only: a field below the minimum or above the maximum is reported unchanged. */
  lemma NotClamped(e: NumberEntity, c: Coordinator)
    requires c.data.Some? && c.entryId == e.base.entryId
    requires e.numberType.Key() in c.data.value && c.data.value[e.numberType.Key()].Int?
    requires c.data.value[e.numberType.Key()].i < e.numberType.Min() || c.data.value[e.numberType.Key()].i > e.numberType.Max()
    ensures NativeValue(e, c) == c.data.value[e.numberType.Key()]
    ensures NativeValue(e, c).i < e.numberType.Min() || NativeValue(e, c).i > e.numberType.Max()
  {
  }

  /** `async_setup_entry`: the number entities added for one entry, None when a constructor raises. */
  function SetupEntry(c: Coordinator): (r: Option<seq<NumberEntity>>)
    requires c.data.Some?
    ensures r.Some? <==> Entity.DeviceInfoReadable(c.data.value)
    ensures r.Some? ==> |r.value| == |ORDER| == 2
    ensures r.Some? ==> forall i :: 0 <= i < |ORDER| ==> r.value[i] == New(c, ORDER[i]).value
  {
    if Entity.DeviceInfoReadable(c.data.value) then
      Some([New(c, Threshold).value, New(c, Interval).value])
    else
      None
  }

  function Keys(): seq<string>
  {
    seq(|ORDER|, i requires 0 <= i < |ORDER| => ORDER[i].Key())
  }

  /** The threshold and interval entities of one entry carry distinct unique ids. */
  lemma UniqueIdsDistinct(c: Coordinator)
    requires c.data.Some? && SetupEntry(c).Some?
    ensures SetupEntry(c).value[0].base.uniqueId == c.entryId + "_threshold"
    ensures SetupEntry(c).value[1].base.uniqueId == c.entryId + "_interval"
    ensures SetupEntry(c).value[0].base.uniqueId != SetupEntry(c).value[1].base.uniqueId
  {
  }
}
