// A stream object of the device, one per direction. Its active flag can be
// written directly; its format can only be changed through a deferred
// configuration change.
module StreamObject {
  import opened Properties
  import Config

  const Listed: set<Selector> := {
    BaseClass, Class, Owner, OwnedObjects, IsActive, StreamDirection, TerminalType,
    StartingChannel, Latency, VirtualFormat, PhysicalFormat, AvailableVirtualFormats,
    AvailablePhysicalFormats }

  const SettableSelectors: set<Selector> := { IsActive, VirtualFormat, PhysicalFormat }

  predicate Exists(a: Address)
    ensures Exists(a) <==> a.selector in Listed
  {
    match a.selector
    case BaseClass | Class | Owner | OwnedObjects | IsActive | StreamDirection | TerminalType
      | StartingChannel | Latency | VirtualFormat | PhysicalFormat | AvailableVirtualFormats
      | AvailablePhysicalFormats => true
    case _ => false
  }

  lemma ListedCount()
    ensures |Listed| == 13 && SettableSelectors <= Listed
  {
  }

  function IsSettable(a: Address): (r: SettableReply)
    ensures a.selector in Listed ==> r == Settable(a.selector in SettableSelectors)
    ensures a.selector !in Listed ==> r == SettableFailed(UnknownProperty)
  {
    match a.selector
    case IsActive | VirtualFormat | PhysicalFormat => Settable(true)
    case _ => if Exists(a) then Settable(false) else SettableFailed(UnknownProperty)
  }

  /** One ranged description per supported rate, each range pinned to that rate. */
  function RangedDescriptions(): (fs: seq<RangedFormat>)
    ensures |fs| == |Config.SupportedSampleRates|
    ensures forall i :: 0 <= i < |fs| ==>
      fs[i].format == BasicDescription(Config.SupportedSampleRates[i])
      && fs[i].rateRange == ValueRange(Config.SupportedSampleRates[i], Config.SupportedSampleRates[i])
  {
    seq(|Config.SupportedSampleRates|, i requires 0 <= i < |Config.SupportedSampleRates| =>
      RangedFormat(BasicDescription(Config.SupportedSampleRates[i]),
        ValueRange(Config.SupportedSampleRates[i], Config.SupportedSampleRates[i])))
  }

  function Size(a: Address): (r: SizeReply)
    ensures r.Sized? <==> a.selector in Listed
    ensures !r.Sized? ==> r == SizeFailed(UnknownProperty)
    ensures a.selector in {AvailableVirtualFormats, AvailablePhysicalFormats}
      ==> r == Sized(|Config.SupportedSampleRates| * RangedDescriptionSize)
  {
    match a.selector
    case BaseClass => Sized(ClassIdSize)
    case Class => Sized(ClassIdSize)
    case Owner => Sized(ObjectIdSize)
    case OwnedObjects => Sized(0)
    case IsActive => Sized(UInt32Size)
    case StreamDirection => Sized(UInt32Size)
    case TerminalType => Sized(UInt32Size)
    case StartingChannel => Sized(UInt32Size)
    case Latency => Sized(UInt32Size)
    case VirtualFormat | PhysicalFormat => Sized(BasicDescriptionSize)
    case AvailableVirtualFormats | AvailablePhysicalFormats =>
      Sized(|Config.SupportedSampleRates| * RangedDescriptionSize)
    case _ => SizeFailed(UnknownProperty)
  }

  /** As many ranged descriptions as fit, k = min(capacity / 56, rate count). */
  function FormatList(capacity: nat): (r: GetReply)
    ensures r.Got? && r.value.RangedFormats?
    ensures r.value.formats <= RangedDescriptions()
    ensures |r.value.formats| == if capacity / RangedDescriptionSize < |Config.SupportedSampleRates|
      then capacity / RangedDescriptionSize else |Config.SupportedSampleRates|
    ensures r.bytes == |r.value.formats| * RangedDescriptionSize <= capacity
  {
    var k := if capacity / RangedDescriptionSize < |Config.SupportedSampleRates|
      then capacity / RangedDescriptionSize else |Config.SupportedSampleRates|;
    Got(k * RangedDescriptionSize, RangedFormats(RangedDescriptions()[..k]))
  }

  /** `active` is this stream's own flag; `rate` the device's nominal sample rate. */
  function Get(dir: Direction, a: Address, capacity: nat, active: bool, rate: real): (r: GetReply)
    ensures a.selector !in Listed ==> r == GetFailed(UnknownProperty)
    ensures r.Got? ==> r.bytes <= capacity
    ensures Size(a).Sized? && Size(a).bytes <= capacity ==> r.Got? && r.bytes == Size(a).bytes
    ensures a.selector !in {AvailableVirtualFormats, AvailablePhysicalFormats}
      && Size(a).Sized? && capacity < Size(a).bytes
      ==> r == GetFailed(BadPropertySize)
    ensures a.selector == IsActive && capacity >= UInt32Size ==> r == Got(UInt32Size, Word(BoolWord(active)))
    ensures a.selector == StreamDirection && capacity >= UInt32Size
      ==> r.value == Word(if dir == In then 1 else 0)
    ensures a.selector == TerminalType && capacity >= UInt32Size
      ==> r.value == Word(if dir == In then TerminalMicrophone else TerminalSpeaker)
    ensures a.selector in {VirtualFormat, PhysicalFormat} && capacity >= BasicDescriptionSize
      ==> r.value == Format(BasicDescription(rate))
    ensures a.selector in {AvailableVirtualFormats, AvailablePhysicalFormats} ==> r == FormatList(capacity)
  {
    match a.selector
    case BaseClass => Fixed(capacity, ClassIdSize, ClassValue(ObjectClass))
    case Class => Fixed(capacity, ClassIdSize, ClassValue(StreamClass))
    case Owner => Fixed(capacity, ObjectIdSize, ObjectValue(DeviceId))
    case OwnedObjects => Got(0, Untouched)
    case IsActive => Fixed(capacity, UInt32Size, Word(BoolWord(active)))
    case StreamDirection => Fixed(capacity, UInt32Size, Word(BoolWord(dir == In)))
    case TerminalType =>
      Fixed(capacity, UInt32Size, Word(if dir == In then TerminalMicrophone else TerminalSpeaker))
    case StartingChannel => Fixed(capacity, UInt32Size, Word(1))
    case Latency => Fixed(capacity, UInt32Size, Word(0))
    case VirtualFormat | PhysicalFormat =>
      Fixed(capacity, BasicDescriptionSize, Format(BasicDescription(rate)))
    case AvailableVirtualFormats | AvailablePhysicalFormats => FormatList(capacity)
    case _ => GetFailed(UnknownProperty)
  }

  /**
   * The active flag needs at least one UInt32 (nonzero is active) and is reported
   * only if it changes; a format needs exactly one AudioStreamBasicDescription and
   * is handed to the configuration-change check, never reported here.
   */
  function Set(dir: Direction, a: Address, d: SetData): (r: SetAction)
    ensures r != Reject(UnknownProperty) <==> IsSettable(a) == Settable(true)
    ensures r.Apply? <==> a.selector == IsActive && d.size >= UInt32Size
    ensures r.Delegate? <==> (a.selector == VirtualFormat || a.selector == PhysicalFormat) && d.size == BasicDescriptionSize
    ensures IsSettable(a) == Settable(true) && !r.Apply? && !r.Delegate? ==> r == Reject(BadPropertySize)
    ensures r.Apply? ==> r.effect == ActivateStream(dir, d.word != 0) && r.onChange == [GlobalMain(a.selector)]
    ensures r.Delegate? ==> r.request == RequestFormat(d.format)
  {
    match a.selector
    case IsActive =>
      if d.size < UInt32Size then Reject(BadPropertySize)
      else Apply(ActivateStream(dir, d.word != 0), [GlobalMain(IsActive)])
    case VirtualFormat | PhysicalFormat =>
      if d.size != BasicDescriptionSize then Reject(BadPropertySize)
      else Delegate(RequestFormat(d.format))
    case _ => Reject(UnknownProperty)
  }
}
