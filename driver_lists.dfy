// The list writers the driver's concrete objects supply to the object templates:
// each fills a caller's array with at most `itemCount` entries and returns how
// many it wrote. Each is proved to write the prefix of the list the
// corresponding property read reports.
module DriverLists {
  import opened Properties
  import Config
  import Util
  import PluginObject
  import BoxObject
  import DeviceObject
  import StreamObject

  /** The plug-in's device list: the device, only while the box is acquired and one id fits. */
  method PluginDeviceList(acquired: bool, objs: array<nat>, itemCount: nat) returns (count: nat)
    requires itemCount <= objs.Length
    modifies objs
    ensures count == |IdPrefix(ObjectIdSize * itemCount, PluginObject.DeviceListIds(acquired)).value.ids|
    ensures objs[..count] == PluginObject.DeviceListIds(acquired)[..count]
    ensures forall j :: count <= j < objs.Length ==> objs[j] == old(objs[j])
  {
    if acquired && itemCount >= 1 {
      objs[0] := DeviceId;
      return 1;
    }
    return 0;
  }

  /** The plug-in's box list: the box, if one id fits. */
  method PluginBoxList(objs: array<nat>, itemCount: nat) returns (count: nat)
    requires itemCount <= objs.Length
    modifies objs
    ensures count == |IdPrefix(ObjectIdSize * itemCount, PluginObject.BoxListIds()).value.ids|
    ensures objs[..count] == PluginObject.BoxListIds()[..count]
    ensures forall j :: count <= j < objs.Length ==> objs[j] == old(objs[j])
  {
    count := itemCount;
    if itemCount >= 1 {
      count := 1;
      objs[0] := BoxId;
    }
  }

  /** The plug-in's owned objects: the box first, then the device while the box is acquired. */
  method PluginObjectList(acquired: bool, objs: array<nat>, itemCount: nat) returns (count: nat)
    requires itemCount <= objs.Length
    modifies objs
    ensures count == |IdPrefix(ObjectIdSize * itemCount, PluginObject.OwnedList(acquired)).value.ids|
    ensures objs[..count] == PluginObject.OwnedList(acquired)[..count]
    ensures forall j :: count <= j < objs.Length ==> objs[j] == old(objs[j])
  {
    if itemCount == 0 {
      return 0;
    }
    objs[0] := BoxId;
    if acquired && itemCount >= 2 {
      objs[1] := DeviceId;
      return 2;
    }
    return 1;
  }

  /** The box's device list: the device, if one id fits, whether or not the box is acquired. */
  method BoxDeviceList(objs: array<nat>, itemCount: nat) returns (count: nat)
    requires itemCount <= objs.Length
    modifies objs
    ensures count == |IdPrefix(ObjectIdSize * itemCount, BoxObject.DeviceListIds()).value.ids|
    ensures objs[..count] == BoxObject.DeviceListIds()[..count]
    ensures forall j :: count <= j < objs.Length ==> objs[j] == old(objs[j])
  {
    count := itemCount;
    if itemCount >= 1 {
      objs[0] := DeviceId;
      count := 1;
    }
  }

  /** The device's rate ranges: min(itemCount, rate count) ranges, each pinned to one rate. */
  method SampleRates(ranges: array<ValueRange>, itemCount: nat) returns (count: nat)
    requires itemCount <= ranges.Length
    modifies ranges
    ensures count == |DeviceObject.RateList(ValueRangeSize * itemCount).value.ranges|
    ensures ranges[..count] == DeviceObject.SampleRateRanges()[..count]
    ensures forall j :: count <= j < ranges.Length ==> ranges[j] == old(ranges[j])
  {
    count := Util.Min([itemCount, |Config.SupportedSampleRates|]);
    for i := 0 to count
      invariant ranges[..i] == DeviceObject.SampleRateRanges()[..i]
      invariant forall j :: count <= j < ranges.Length ==> ranges[j] == old(ranges[j])
    {
      ranges[i] := ValueRange(Config.SupportedSampleRates[i], Config.SupportedSampleRates[i]);
    }
  }

  /**
   * The stream's ranged descriptions: one per rate for the first `itemCount` rates.
   * The stream's read clamps `itemCount` to the rate count before calling it.
   */
  method RangedDescriptions(desc: array<RangedFormat>, itemCount: nat)
    requires itemCount <= desc.Length && itemCount <= |Config.SupportedSampleRates|
    modifies desc
    ensures desc[..itemCount] == StreamObject.RangedDescriptions()[..itemCount]
    ensures forall j :: itemCount <= j < desc.Length ==> desc[j] == old(desc[j])
  {
    for i := 0 to itemCount
      invariant desc[..i] == StreamObject.RangedDescriptions()[..i]
      invariant forall j :: itemCount <= j < desc.Length ==> desc[j] == old(desc[j])
    {
      var r := Config.SupportedSampleRates[i];
      desc[i] := RangedFormat(BasicDescription(r), ValueRange(r, r));
    }
  }
}
