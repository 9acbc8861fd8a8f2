// The box object: the enclosure that holds the device. Its name and its
// acquired flag are the two properties a client can write; acquiring the box is
// what publishes the device.
module BoxObject {
  import opened Properties
  import Config

  const Listed: set<Selector> := {
    BaseClass, Class, Owner, Name, ModelName, Manufacturer, OwnedObjects, SerialNumber,
    FirmwareVersion, BoxUid, TransportType, HasAudio, HasVideo, HasMidi, IsProtected,
    Acquired, AcquisitionFailed, BoxDeviceList }

  const SettableSelectors: set<Selector> := { Name, Acquired }

  predicate Exists(a: Address)
    ensures Exists(a) <==> a.selector in Listed
  {
    match a.selector
    case BaseClass | Class | Owner | Name | ModelName | Manufacturer | OwnedObjects
      | SerialNumber | FirmwareVersion | BoxUid | TransportType | HasAudio | HasVideo
      | HasMidi | IsProtected | Acquired | AcquisitionFailed | BoxDeviceList => true
    case _ => false
  }

  lemma SettableAreListed()
    ensures SettableSelectors <= Listed
  {
  }

  function IsSettable(a: Address): (r: SettableReply)
    ensures a.selector in Listed ==> r == Settable(a.selector in SettableSelectors)
    ensures a.selector !in Listed ==> r == SettableFailed(UnknownProperty)
  {
    match a.selector
    case Name | Acquired => Settable(true)
    case _ => if Exists(a) then Settable(false) else SettableFailed(UnknownProperty)
  }

  /** The box's device list: the one device, whatever the acquired state. */
  function DeviceListIds(): seq<nat> {
    [DeviceId]
  }

  function Size(a: Address): (r: SizeReply)
    ensures r.Sized? <==> a.selector in Listed
    ensures !r.Sized? ==> r == SizeFailed(UnknownProperty)
    ensures a.selector == OwnedObjects ==> r == Sized(0)
    ensures a.selector == BoxDeviceList ==> r == Sized(4)
  {
    match a.selector
    case BaseClass => Sized(ClassIdSize)
    case Class => Sized(ClassIdSize)
    case Owner => Sized(ObjectIdSize)
    case Name => Sized(StringRefSize)
    case ModelName => Sized(StringRefSize)
    case Manufacturer => Sized(StringRefSize)
    case OwnedObjects => Sized(0)
    case SerialNumber => Sized(StringRefSize)
    case FirmwareVersion => Sized(StringRefSize)
    case BoxUid => Sized(StringRefSize)
    case TransportType => Sized(UInt32Size)
    case HasAudio => Sized(UInt32Size)
    case HasVideo => Sized(UInt32Size)
    case HasMidi => Sized(UInt32Size)
    case IsProtected => Sized(UInt32Size)
    case Acquired => Sized(UInt32Size)
    case AcquisitionFailed => Sized(UInt32Size)
    case BoxDeviceList => Sized(|DeviceListIds()| * ObjectIdSize)
    case _ => SizeFailed(UnknownProperty)
  }

  function Get(a: Address, capacity: nat, acquired: bool, boxName: Option<string>): (r: GetReply)
    ensures a.selector !in Listed ==> r == GetFailed(UnknownProperty)
    ensures r.Got? ==> r.bytes <= capacity
    ensures Size(a).Sized? && Size(a).bytes <= capacity ==> r.Got? && r.bytes == Size(a).bytes
    ensures a.selector != BoxDeviceList && Size(a).Sized? && capacity < Size(a).bytes
      ==> r == GetFailed(BadPropertySize)
    ensures a.selector == OwnedObjects ==> r == Got(0, Untouched)
    ensures a.selector == Name && capacity >= StringRefSize ==> r.value == Text(boxName)
    ensures a.selector == Acquired && capacity >= UInt32Size ==> r.value == Word(if acquired then 1 else 0)
    ensures a.selector == BoxDeviceList ==> r == IdPrefix(capacity, [DeviceId])
  {
    match a.selector
    case BaseClass => Fixed(capacity, ClassIdSize, ClassValue(ObjectClass))
    case Class => Fixed(capacity, ClassIdSize, ClassValue(BoxClass))
    case Owner => Fixed(capacity, ObjectIdSize, ObjectValue(PluginId))
    case Name => Fixed(capacity, StringRefSize, Text(boxName))
    case ModelName => Fixed(capacity, StringRefSize, Text(Some(Config.BoxModelName)))
    case Manufacturer => Fixed(capacity, StringRefSize, Text(Some(Config.ManufacturerName)))
    case OwnedObjects => Got(0, Untouched)
    case SerialNumber => Fixed(capacity, StringRefSize, Text(Some(Config.SerialNumber)))
    case FirmwareVersion => Fixed(capacity, StringRefSize, Text(Some(Config.FirmwareVersion)))
    case BoxUid => Fixed(capacity, StringRefSize, Text(Some(Config.BoxUid)))
    case TransportType => Fixed(capacity, UInt32Size, Word(TransportVirtual))
    case HasAudio => Fixed(capacity, UInt32Size, Word(1))
    case HasVideo => Fixed(capacity, UInt32Size, Word(0))
    case HasMidi => Fixed(capacity, UInt32Size, Word(0))
    case IsProtected => Fixed(capacity, UInt32Size, Word(0))
    case Acquired => Fixed(capacity, UInt32Size, Word(BoolWord(acquired)))
    case AcquisitionFailed => Fixed(capacity, UInt32Size, Word(0))
    case BoxDeviceList => IdPrefix(capacity, DeviceListIds())
    case _ => GetFailed(UnknownProperty)
  }

  /**
   * A write of the name needs at least a CFStringRef; a write of the acquired flag
   * exactly one UInt32, any nonzero value meaning acquired. Their changes are
   * reported only when the driver's setter reports one.
   */
  function Set(a: Address, d: SetData): (r: SetAction)
    ensures r != Reject(UnknownProperty) <==> IsSettable(a) == Settable(true)
    ensures r.Apply? <==> (a.selector == Name && d.size >= StringRefSize) || (a.selector == Acquired && d.size == UInt32Size)
    ensures IsSettable(a) == Settable(true) && !r.Apply? ==> r == Reject(BadPropertySize)
    ensures r.Apply? ==> |r.onChange| > 0 && r.onChange[0] == GlobalMain(a.selector)
    ensures r.Apply? && a.selector == Name ==> r.effect == RenameBox(d.name) && |r.onChange| == 1
    ensures r.Apply? && a.selector == Acquired ==>
      r.effect == AcquireBox(d.word != 0) && r.onChange == [GlobalMain(Acquired), GlobalMain(BoxDeviceList)]
  {
    match a.selector
    case Name =>
      if d.size < StringRefSize then Reject(BadPropertySize)
      else Apply(RenameBox(d.name), [GlobalMain(Name)])
    case Acquired =>
      if d.size != UInt32Size then Reject(BadPropertySize)
      else Apply(AcquireBox(d.word != 0), [GlobalMain(Acquired), GlobalMain(BoxDeviceList)])
    case _ => Reject(UnknownProperty)
  }
}
