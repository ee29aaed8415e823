/** The switch platform: power and auto mode, read from the snapshot; turning them only asks for a refresh. */
module Switch {
  import opened Wrappers
  import opened DeviceData
  import Entity

  datatype SwitchType = Power | AutoMode
  {
    function Key(): string
    {
      match this
      case Power => "power"
      case AutoMode => "auto_mode"
    }
  }

  /** The order in which setup creates the switches. */
  const ORDER: seq<SwitchType> := [Power, AutoMode]

  datatype SwitchEntity = SwitchEntity(switchType: SwitchType, base: Entity.Base)

  /** `AthenaSwitchEntity.__init__`; None when it raises on an unreadable device_info. */
  function New(c: Coordinator, t: SwitchType): (r: Option<SwitchEntity>)
    requires c.data.Some?
    ensures r.Some? <==> Entity.DeviceInfoReadable(c.data.value)
    ensures r.Some? ==> r.value.switchType == t
    ensures r.Some? ==> r.value.base.entryId == c.entryId
    ensures r.Some? ==> r.value.base.uniqueId == c.entryId + "_" + t.Key()
    ensures r.Some? ==> r.value.base.deviceInfo.model == Entity.InfoField(c.data.value, "model")
    ensures r.Some? ==> r.value.base.deviceInfo.swVersion == Entity.InfoField(c.data.value, "firmware_version")
  {
    match Entity.NewBase(c, t.Key())
    case Some(b) => Some(SwitchEntity(t, b))
    case None => None
  }

  /** `is_on`: the flag in the current snapshot, or None when it is absent. */
  function IsOn(e: SwitchEntity, c: Coordinator): (v: Value)
    requires c.data.Some?
    requires c.entryId == e.base.entryId
    ensures e.switchType.Key() in c.data.value ==> v == c.data.value[e.switchType.Key()]
    ensures e.switchType.Key() !in c.data.value ==> v == Null
  {
    Get(c.data.value, e.switchType.Key(), Null)
  }

  /** `async_turn_on`: no device control yet, only a refresh request. */
  function TurnOn(e: SwitchEntity, c: Coordinator): (r: Coordinator)
    ensures r.data == c.data && r.entryId == c.entryId && r.refreshRequested
  {
    RequestRefresh(c)
  }

  /** `async_turn_off`: no device control yet, only a refresh request. */
  function TurnOff(e: SwitchEntity, c: Coordinator): (r: Coordinator)
    ensures r.data == c.data && r.entryId == c.entryId && r.refreshRequested
  {
    RequestRefresh(c)
  }

  /**
   * Turning on and turning off are the same action, and neither changes
   * what `is_on` reports until a refresh brings a new snapshot.
   */
  lemma TurnLeavesStateUnread(e: SwitchEntity, c: Coordinator)
    requires c.data.Some? && c.entryId == e.base.entryId
    ensures TurnOn(e, c) == TurnOff(e, c)
    ensures IsOn(e, TurnOn(e, c)) == IsOn(e, c)
    ensures IsOn(e, TurnOff(e, c)) == IsOn(e, c)
  {
  }

  /** `async_setup_entry`: the switches added for one entry, None when a constructor raises. */
  function SetupEntry(c: Coordinator): (r: Option<seq<SwitchEntity>>)
    requires c.data.Some?
    ensures r.Some? <==> Entity.DeviceInfoReadable(c.data.value)
    ensures r.Some? ==> |r.value| == |ORDER| == 2
    ensures r.Some? ==> forall i :: 0 <= i < |ORDER| ==> r.value[i] == New(c, ORDER[i]).value
  {
    if Entity.DeviceInfoReadable(c.data.value) then
      Some([New(c, Power).value, New(c, AutoMode).value])
    else
      None
  }

  function Keys(): seq<string>
  {
    seq(|ORDER|, i requires 0 <= i < |ORDER| => ORDER[i].Key())
  }

  /** The two switches of one entry, power then auto mode, carry distinct unique ids. */
  lemma UniqueIdsDistinct(c: Coordinator)
    requires c.data.Some? && SetupEntry(c).Some?
    ensures SetupEntry(c).value[0].switchType == Power && SetupEntry(c).value[1].switchType == AutoMode
    ensures SetupEntry(c).value[0].base.uniqueId != SetupEntry(c).value[1].base.uniqueId
  {
  }
}
