// The vocabulary every object kind shares: property addresses, status codes,
// the values a property read can produce, the byte sizes of those values, and
// the shape of a property write before the driver carries it out.
module Properties {
  import Config

  datatype Option<T> = None | Some(value: T)

  /** OSStatus results of the audio server plug-in interface. */
  datatype Status =
    | NoError
    | BadObject
    | UnknownProperty
    | BadPropertySize
    | IllegalOperation
    | UnsupportedFormat
    | UnspecifiedError
    | UnsupportedOperation

  /**
   * Property selectors. Selectors that are the same four-character code are one
   * constructor (the box and device transport type, the device and stream latency);
   * every code that no object kind handles is `OtherSelector`.
   */
  datatype Selector =
    // every object
    | BaseClass | Class | Owner | Name | ModelName | Manufacturer | OwnedObjects
    | SerialNumber | FirmwareVersion | ControlList
    // plug-in
    | BoxList | TranslateUidToBox | DeviceList | TranslateUidToDevice | ResourceBundle
    // box
    | BoxUid | TransportType | HasAudio | HasVideo | HasMidi | IsProtected | Acquired
    | AcquisitionFailed | BoxDeviceList
    // device
    | DeviceUid | ModelUid | RelatedDevices | ClockDomain | DeviceIsAlive | DeviceIsRunning
    | CanBeDefaultDevice | CanBeDefaultSystemDevice | Latency | Streams | SafetyOffset
    | NominalSampleRate | AvailableNominalSampleRates | IsHidden | PreferredChannelsForStereo
    | PreferredChannelLayout | ZeroTimeStampPeriod | Icon
    // stream
    | IsActive | StreamDirection | TerminalType | StartingChannel | VirtualFormat
    | PhysicalFormat | AvailableVirtualFormats | AvailablePhysicalFormats
    // controls
    | ControlScope | ControlElement | ScalarValue | DecibelValue | DecibelRange
    | ConvertScalarToDecibels | ConvertDecibelsToScalar | BooleanValue
    | OtherSelector(code: nat)

  datatype Scope = Global | Input | Output | OtherScope(code: nat)

  datatype Address = Address(selector: Selector, scope: Scope, element: nat)

  const ElementMain: nat := 0

  function GlobalMain(s: Selector): Address {
    Address(s, Global, ElementMain)
  }

  datatype Direction = In | Out

  datatype ClassId =
    | ObjectClass | PlugInClass | BoxClass | DeviceClass | StreamClass
    | LevelControlClass | VolumeControlClass | BooleanControlClass | MuteControlClass

  /** Object ids the driver publishes; 0 is kAudioObjectUnknown. */
  const UnknownObject: nat := 0
  const PluginId: nat := 1
  const BoxId: nat := 2
  const DeviceId: nat := 3
  const StreamInputId: nat := 4
  const VolumeInputId: nat := 5
  const MuteInputId: nat := 6
  const StreamOutputId: nat := 7
  const VolumeOutputId: nat := 8
  const MuteOutputId: nat := 9

  const TransportVirtual: nat := 0x76697274   // 'virt'
  const TerminalMicrophone: nat := 0x6D696372 // 'micr'
  const TerminalSpeaker: nat := 0x73706B72    // 'spkr'
  const ChannelLabelLeft: nat := 1

  // Byte sizes of the property value types (64-bit process).
  const ClassIdSize: nat := 4
  const ObjectIdSize: nat := 4
  const UInt32Size: nat := 4
  const Float32Size: nat := 4
  const Float64Size: nat := 8
  const StringRefSize: nat := 8
  const UrlRefSize: nat := 8
  const ScopeSize: nat := 4
  const ElementSize: nat := 4
  const ValueRangeSize: nat := 16
  const BasicDescriptionSize: nat := 40
  const RangedDescriptionSize: nat := 56
  const LayoutHeaderSize: nat := 12
  const ChannelDescriptionSize: nat := 20

  /** An AudioStreamBasicDescription. */
  datatype StreamFormat = StreamFormat(
    sampleRate: real, formatId: nat, formatFlags: nat, bytesPerPacket: nat,
    framesPerPacket: nat, bytesPerFrame: nat, channelsPerFrame: nat, bitsPerChannel: nat)

  datatype ValueRange = ValueRange(minimum: real, maximum: real)

  datatype RangedFormat = RangedFormat(format: StreamFormat, rateRange: ValueRange)

  /** The only format the device streams, at sample rate `rate`. */
  function BasicDescription(rate: real): StreamFormat {
    StreamFormat(rate, Config.FormatId, Config.FormatFlags, Config.BytesPerPacket,
      Config.FramesPerPacket, Config.BytesPerFrame, Config.ChannelCount, Config.BitsPerChannel)
  }

  /** Volume readings computed by the floating-point volume curve, which is not modelled. */
  datatype LevelReading = NormalizedVolume | DecibelVolume | ScalarToDecibels | DecibelsToScalar

  /** What a successful property read leaves in the caller's buffer. */
  datatype Value =
    | ClassValue(classId: ClassId)
    | ObjectValue(id: nat)
    | Text(text: Option<string>)
    | Word(word: nat)
    | Rate(rate: real)
    | Ids(ids: seq<nat>)
    | Words(words: seq<nat>)
    | Ranges(ranges: seq<ValueRange>)
    | Format(format: StreamFormat)
    | RangedFormats(formats: seq<RangedFormat>)
    | Layout(labels: seq<nat>)
    | ScopeValue(scope: Scope)
    | Level(reading: LevelReading)
    | DecibelRangeValue
    | IconUrl
    | Untouched

  function BoolWord(b: bool): nat {
    if b then 1 else 0
  }

  /** Result of is_settable: an error status, or NoError and the flag. */
  datatype SettableReply = SettableFailed(status: Status) | Settable(settable: bool)

  /** Result of size: an error, a byte count, or NoError without writing the count. */
  datatype SizeReply = SizeFailed(status: Status) | Sized(bytes: nat) | SizeUnwritten

  /** Result of get: an error, or the bytes reported and the value written. */
  datatype GetReply = GetFailed(status: Status) | Got(bytes: nat, value: Value)

  /** The qualifier of a read: its byte size and the CFString it points to, if any. */
  datatype Qualifier = Qualifier(size: nat, uid: Option<string>)

  /** A fixed-size value: refused when the caller's buffer is smaller. */
  function Fixed(capacity: nat, size: nat, v: Value): (r: GetReply)
    ensures r.Got? <==> size <= capacity
    ensures r.Got? ==> r.bytes == size && r.value == v
    ensures r.GetFailed? ==> r.status == BadPropertySize
  {
    if capacity < size then GetFailed(BadPropertySize) else Got(size, v)
  }

  /** `count` ids of a list, as many as fit: k = min(capacity / 4, |ids|). */
  function IdPrefix(capacity: nat, ids: seq<nat>): (r: GetReply)
    ensures r.Got? && r.value.Ids?
    ensures r.bytes == ObjectIdSize * |r.value.ids| && r.bytes <= capacity
    ensures r.value.ids <= ids
    ensures |r.value.ids| == if capacity / ObjectIdSize < |ids| then capacity / ObjectIdSize else |ids|
  {
    var k := if capacity / ObjectIdSize < |ids| then capacity / ObjectIdSize else |ids|;
    Got(ObjectIdSize * k, Ids(ids[..k]))
  }

  /** The bytes of a property write, read as the type the selector expects. */
  datatype SetData = SetData(
    size: nat, word: nat, float32: real, float64: real, name: Option<string>, format: StreamFormat)

  /** A requested volume: a normalized slider position or a level in decibels. */
  datatype VolumeInput = Normalized(value: real) | Decibels(db: real)

  /** A state change an object kind asks the driver to make. */
  datatype Effect =
    | RenameBox(name: Option<string>)
    | AcquireBox(acquired: bool)
    | ActivateStream(dir: Direction, active: bool)
    | MuteMaster(muted: bool)
    | AdjustVolume(input: VolumeInput)

  /** A configuration change request the driver validates and defers. */
  datatype Request = RequestRate(rate: real) | RequestFormat(format: StreamFormat)

  /**
   * The outcome of an object kind's set: refused with a status; accepted with no
   * change; an effect whose `onChange` addresses are reported only if the driver's
   * setter reports a change; or a request whose status becomes set's status.
   */
  datatype SetAction =
    | Reject(status: Status)
    | Unchanged
    | Apply(effect: Effect, onChange: seq<Address>)
    | Delegate(request: Request)
}
