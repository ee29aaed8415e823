/**
 * The five platforms of one config entry together, forwarded in the
 * integration's order (sensor, switch, number, select, binary sensor)
 * once the first refresh has produced a snapshot.
 */
module Integration {
  import opened Wrappers
  import opened DeviceData
  import Entity
  import Sensor
  import Switch
  import Number
  import Select
  import BinarySensor

  /** Every entity type key of every platform, in forwarding order. */
  function AllKeys(): seq<string>
  {
    Sensor.Keys() + Switch.Keys() + Number.Keys() + Select.Keys() + BinarySensor.Keys()
  }

  lemma AllKeysDistinct()
    ensures |AllKeys()| == 14
    ensures Entity.Distinct(AllKeys())
  {
  }

  function SensorBases(es: seq<Sensor.SensorEntity>): seq<Entity.Base>
  {
    seq(|es|, i requires 0 <= i < |es| => es[i].base)
  }

  function SwitchBases(es: seq<Switch.SwitchEntity>): seq<Entity.Base>
  {
    seq(|es|, i requires 0 <= i < |es| => es[i].base)
  }

  function NumberBases(es: seq<Number.NumberEntity>): seq<Entity.Base>
  {
    seq(|es|, i requires 0 <= i < |es| => es[i].base)
  }

  function SelectBases(es: seq<Select.SelectEntity>): seq<Entity.Base>
  {
    seq(|es|, i requires 0 <= i < |es| => es[i].base)
  }

  function BinarySensorBases(es: seq<BinarySensor.BinarySensorEntity>): seq<Entity.Base>
  {
    seq(|es|, i requires 0 <= i < |es| => es[i].base)
  }

  /** The shared attributes of every entity the five platforms add for one entry. */
  function EntryEntities(c: Coordinator): (r: Option<seq<Entity.Base>>)
    requires c.data.Some?
    ensures r.Some? <==> Entity.DeviceInfoReadable(c.data.value)
    ensures r.Some? ==> |r.value| == 14
  {
    match (Sensor.SetupEntry(c), Switch.SetupEntry(c), Number.SetupEntry(c),
           Select.SetupEntry(c), BinarySensor.SetupEntry(c))
    case (Some(a), Some(b), Some(n), Some(s), Some(d)) =>
      Some(SensorBases(a) + SwitchBases(b) + NumberBases(n) + SelectBases(s) + BinarySensorBases(d))
    case _ => None
  }

  /**
   * Each entity's unique id is the entry id joined to its own type key,
   * so no two entities of one entry share a unique id, and all of them
   * name the same device.
   */
  lemma EntryUniqueIdsDistinct(c: Coordinator)
    requires c.data.Some? && EntryEntities(c).Some?
    ensures forall i :: 0 <= i < 14 ==> EntryEntities(c).value[i].uniqueId == c.entryId + "_" + AllKeys()[i]
    ensures forall i, j :: 0 <= i < j < 14 ==> EntryEntities(c).value[i].uniqueId != EntryEntities(c).value[j].uniqueId
    ensures forall i :: 0 <= i < 14 ==> EntryEntities(c).value[i].deviceInfo == EntryEntities(c).value[0].deviceInfo
  {
    var es := EntryEntities(c).value;
    var keys := AllKeys();
    AllKeysDistinct();
    assert forall i :: 0 <= i < 14 ==> es[i] == Entity.NewBase(c, keys[i]).value;
    Entity.DistinctKeysDistinctIds(c.entryId, keys);
    var ids := seq(|keys|, i requires 0 <= i < |keys| => Entity.UniqueId(c.entryId, keys[i]));
    assert forall i :: 0 <= i < 14 ==> es[i].uniqueId == ids[i];
  }

  /** The placeholder payload, as the coordinator's data after a first refresh. */
  function PlaceholderCoordinator(entryId: string): (c: Coordinator)
    ensures c.data.Some? && Entity.DeviceInfoReadable(c.data.value)
  {
    Coordinator(entryId, Some(Placeholder()), false)
  }

  /** Against the placeholder payload, the fields it lacks fall back to their defaults. */
  lemma PlaceholderReadings(entryId: string)
    ensures var c := PlaceholderCoordinator(entryId);
      && Number.NativeValue(Number.New(c, Number.Threshold).value, c) == Int(50)
      && Number.NativeValue(Number.New(c, Number.Interval).value, c) == Int(60)
      && Select.CurrentOption(Select.New(c, Select.Mode).value, c) == Text("automatic")
      && Select.CurrentOption(Select.New(c, Select.Profile).value, c) == Text("normal")
      && Sensor.NativeValue(Sensor.New(c, Sensor.Temperature).value, c) == Float("23.5")
      && Switch.IsOn(Switch.New(c, Switch.Power).value, c) == Bool(true)
      && BinarySensor.IsOn(BinarySensor.New(c, BinarySensor.Fault).value, c) == Bool(false)
      && Sensor.New(c, Sensor.Status).value.base.deviceInfo.model == Text("Athena Controller")
      && Sensor.New(c, Sensor.Status).value.base.deviceInfo.swVersion == Text("1.2.3")
  {
  }
}
