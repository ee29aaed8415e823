/** The select platform: mode and profile, read from the snapshot with fixed defaults and option lists. */
module Select {
  import opened Wrappers
  import opened DeviceData
  import Entity

  datatype SelectType = Mode | Profile
  {
    function Key(): string
    {
      match this
      case Mode => "mode"
      case Profile => "profile"
    }

    /** The options offered to the user. */
    function Options(): seq<string>
    {
      match this
      case Mode => ["manual", "automatic", "scheduled", "maintenance"]
      case Profile => ["eco", "normal", "performance", "custom"]
    }

    /** The option shown while the snapshot has no such field. */
    function Default(): string
    {
      match this
      case Mode => "automatic"
      case Profile => "normal"
    }
  }

  /** The order in which setup creates the selects. */
  const ORDER: seq<SelectType> := [Mode, Profile]

  datatype SelectEntity = SelectEntity(selectType: SelectType, base: Entity.Base)

  /** `AthenaSelectEntity.__init__`; None when it raises on an unreadable device_info. */
  function New(c: Coordinator, t: SelectType): (r: Option<SelectEntity>)
    requires c.data.Some?
    ensures r.Some? <==> Entity.DeviceInfoReadable(c.data.value)
    ensures r.Some? ==> r.value.selectType == t
    ensures r.Some? ==> r.value.base.entryId == c.entryId
    ensures r.Some? ==> r.value.base.uniqueId == c.entryId + "_" + t.Key()
    ensures r.Some? ==> r.value.base.deviceInfo.model == Entity.InfoField(c.data.value, "model")
    ensures r.Some? ==> r.value.base.deviceInfo.swVersion == Entity.InfoField(c.data.value, "firmware_version")
  {
    match Entity.NewBase(c, t.Key())
    case Some(b) => Some(SelectEntity(t, b))
    case None => None
  }

  /** `current_option`: the field of the current snapshot, unchecked against the options, or the default. */
  function CurrentOption(e: SelectEntity, c: Coordinator): (v: Value)
    requires c.data.Some?
    requires c.entryId == e.base.entryId
    ensures e.selectType.Key() in c.data.value ==> v == c.data.value[e.selectType.Key()]
    ensures e.selectType.Key() !in c.data.value ==> v == Text(e.selectType.Default())
  {
    Get(c.data.value, e.selectType.Key(), Text(e.selectType.Default()))
  }

  /** `async_select_option`: the option is not sent anywhere yet, only a refresh is requested. */
  function SelectOption(e: SelectEntity, c: Coordinator, option: string): (r: Coordinator)
    ensures r.data == c.data && r.entryId == c.entryId && r.refreshRequested
  {
    RequestRefresh(c)
  }

  /** Selecting ignores the option and does not change what the entity reports. */
  lemma SelectIgnoresOption(e: SelectEntity, c: Coordinator, o1: string, o2: string)
    requires c.data.Some? && c.entryId == e.base.entryId
    ensures SelectOption(e, c, o1) == SelectOption(e, c, o2)
    ensures CurrentOption(e, SelectOption(e, c, o1)) == CurrentOption(e, c)
  {
  }

  /** Four distinct options each, and the default is one of them. */
  lemma OptionsWellFormed(t: SelectType)
    ensures |t.Options()| == 4
    ensures Entity.Distinct(t.Options())
    ensures t.Default() in t.Options()
  {
  }

  /** A field outside the option list is reported unchanged. */
  lemma NoMembershipCheck(e: SelectEntity, c: Coordinator, o: string)
    requires c.data.Some? && c.entryId == e.base.entryId
    requires e.selectType.Key() in c.data.value && c.data.value[e.selectType.Key()] == Text(o)
    requires o !in e.selectType.Options()
    ensures CurrentOption(e, c) == Text(o)
  {
  }

  /** `async_setup_entry`: the selects added for one entry, None when a constructor raises. */
  function SetupEntry(c: Coordinator): (r: Option<seq<SelectEntity>>)
    requires c.data.Some?
    ensures r.Some? <==> Entity.DeviceInfoReadable(c.data.value)
    ensures r.Some? ==> |r.value| == |ORDER| == 2
    ensures r.Some? ==> forall i :: 0 <= i < |ORDER| ==> r.value[i] == New(c, ORDER[i]).value
  {
    if Entity.DeviceInfoReadable(c.data.value) then
      Some([New(c, Mode).value, New(c, Profile).value])
    else
      None
  }

  function Keys(): seq<string>
  {
    seq(|ORDER|, i requires 0 <= i < |ORDER| => ORDER[i].Key())
  }

  /** Mode then profile, with distinct unique ids. */
  lemma UniqueIdsDistinct(c: Coordinator)
    requires c.data.Some? && SetupEntry(c).Some?
    ensures SetupEntry(c).value[0].base.uniqueId == c.entryId + "_mode"
    ensures SetupEntry(c).value[1].base.uniqueId == c.entryId + "_profile"
    ensures SetupEntry(c).value[0].base.uniqueId != SetupEntry(c).value[1].base.uniqueId
  {
  }
}
