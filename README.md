# Meta-Sonic virtual audio driver: a Dafny model

Meta-Sonic is a macOS Audio Server plug-in. It publishes one virtual loop-back
audio device. The objects it publishes are:

- the plug-in (id 1);
- a box (id 2);
- the device (id 3);
- for each direction, a stream, a master volume control and a master mute
  control (ids 4-6 for input, 7-9 for output).

Whatever a client plays into the output stream is kept in a ring buffer and
read back from the input stream.

This project models three parts of the driver:

- **The property protocol.** Each object answers five questions about an
  address: whether the property exists, whether it can be written, how large its
  value is, what the value is, and how to write it. The driver's entry points
  check the caller's pointers first, then route the object id to its object
  (`callObject`).
  - For each object, `exists`, `is_settable`, `size`, `get` and `set` are
    modelled as functions: `PluginObject`, `BoxObject`, `DeviceObject`,
    `StreamObject`, `VolumeControl`, `MuteControl`.
  - The list writers the concrete objects supply are in-place array methods:
    `DriverLists`, and `DeviceObject.FillFiltered`.
  - Routing and the entry points are in `Dispatch`.
  - Carrying out a write starts with the object's `set`. The object returns an
    `Effect`, and `Dispatch.ApplyEffect` applies it the way the driver's setters
    do: compare with the current value, change only on a difference, report
    changes, defer host calls and save settings.
- **The real-time IO engine.** `Driver.Driver` is a class holding the driver's
  fields.
  - `StartIO` and `StopIO` count the clients running IO. They allocate and free
    the ring buffer, an `array<real>`.
  - `GetZeroTimeStamp` advances the period counter.
  - `DoIOOperation` splits a transfer at the end of the ring. On a read it copies
    out of the ring and applies the master volume; on a write it copies into the
    ring.
  - `IoCycle` holds the specification functions these methods are proved
    against: the ring window a read delivers, the ring a write leaves, stamps,
    and client-count steps.
  - `Dsp` holds the buffer primitives.
- **The sample-rate change.** A write of the nominal sample rate or of a stream
  format only validates the rate. When the rate would change, it queues a
  configuration-change request (`RateChange`). The rate changes only in
  `PerformConfigurationChange`.

`Util` models `util.h`. `Settings` models the stored box settings: the acquired
flag, and the name read back at initialization.

`config.h` is not part of this model. `Config` gives its constants
representative values:

- rates 44100, 48000, 88200 and 96000, default 48000;
- 2 channels of 32-bit float;
- a zero-time-stamp period of 16384 frames;
- a ring of 65536 frames.

The proofs use the properties the driver's static assertions demand, plus the configured rate values:

- the ring sizes are powers of two;
- the default rate is supported;
- every supported rate is a whole number;
- every supported rate is at least 1 Hz (the configured values), which the tick computation needs.

Host callbacks the driver makes are recorded in ghost logs on the driver object:

- `notified`: PropertiesChanged calls;
- `deferred`: blocks dispatched to the global queue;
- `stored`: WriteToStorage and DeleteFromStorage calls.

Readings of the host clock and of storage are parameters.

## Model

| member | source | states |
|---|---|---|
| Util.Clamp | src/mts/util.h:6-10 | the result lies in [lo, hi], equals d exactly when d is already in range, is lo below and hi above; with lo > hi the upper bound wins |
| Util.Min | src/mts/util.h:12-21 | the result is one of the arguments and no argument is smaller |
| Util.Max | src/mts/util.h:23-31 | the result is one of the arguments and no argument is larger |
| Util.IsPowerOfTwo | src/mts/util.h:33-36 | the `v && !(v & (v - 1))` test; a value passing it is 1 or even (its meaning, 2^k, is proved by PowerOfTwoIsPow2 and Pow2IsPowerOfTwo) |
| Util.PowerOfTwoIsPow2 | src/mts/util.h:33-36 | every value passing the `v && !(v & (v - 1))` test is 2^k for some k |
| Util.Pow2IsPowerOfTwo | src/mts/util.h:33-36 | every 2^k passes the power-of-two test |
| Util.MaskIsModulo | src/driver.cpp:1257-1259 | for a power of two c, `t & (c - 1)` equals `t % c`, the identity the ring offset relies on |
| Util.MaskIsMod | src/driver.cpp:1257-1259 | masking with 2^k - 1 keeps the remainder modulo 2^k (by induction on k) |
| Util.IsOneOf | src/mts/util.h:50-58 | true exactly when the value is one of the candidates |
| Config.StaticAssertions | src/driver.cpp:13-19 | the configuration meets the driver's compile-time checks: 32-bit samples, power-of-two ring sizes, a supported default rate, integral rates |
| Config.RatesAreIntegral | src/driver.cpp:18 | every supported rate is a whole number |
| Dsp.Clear | src/mts/dsp.h:9-19 | the n samples from the offset become 0 and every other sample is unchanged |
| Dsp.Copy | src/mts/dsp.h:23-26 | the destination range receives the source range element by element; the rest of the destination is unchanged |
| Dsp.Mul | src/mts/dsp.h:29-37 | each of the n samples becomes its product with the value; the rest is unchanged |
| Properties.Fixed | src/mts/common.h:104-109 | a fixed-size value is written, with its size, exactly when the buffer holds it; otherwise the read fails with a bad-size error |
| Properties.IdPrefix | src/mts/object/plugin.h:148-152 | a list read writes min(capacity / 4, length) ids, a prefix of the list, and reports 4 bytes per id written |
| PluginObject.Exists | src/mts/object/plugin.h:27-43 | the plug-in has exactly its ten listed properties |
| PluginObject.IsSettable | src/mts/object/plugin.h:45-65 | no plug-in property is settable; an unlisted selector is unknown |
| PluginObject.OwnedList | src/driver.cpp:638 | the box comes first, then the device only while the box is acquired |
| PluginObject.DeviceListIds | src/driver.cpp:634 | the device list holds the device exactly while the box is acquired |
| PluginObject.BoxFromUid | src/driver.cpp:626-632 | the box id exactly for the box UID (exact comparison), otherwise the unknown object |
| PluginObject.DeviceFromUid | src/driver.cpp:618-624 | the device id exactly for the device UID, otherwise the unknown object |
| PluginObject.Size | src/mts/object/plugin.h:67-115 | a size for every listed selector and an unknown-property error otherwise; the list sizes follow the acquired flag |
| PluginObject.Translate | src/mts/object/plugin.h:168-198 | a UID translation succeeds exactly when an id fits and the qualifier is one non-null CFStringRef, and answers the lookup's id |
| PluginObject.Get | src/mts/object/plugin.h:117-211 | unknown selectors fail; no read reports more bytes than the buffer holds; a buffer that holds the reported size receives that many bytes; lists are id prefixes. The resource bundle read uses the corrected size check (see Findings) |
| PluginObject.ResourceBundleAsWritten | src/mts/object/plugin.h:201-204 | the resource-bundle read as written: the size check compares against the size of an object id, but a CFStringRef is written |
| PluginObject.ResourceBundleOverrun | src/mts/object/plugin.h:201-204 | a 4-byte buffer passes the check and is reported 8 bytes written |
| PluginObject.ResourceBundleCorrected | src/mts/object/plugin.h:201-204 | the corrected read differs from the read as written exactly on buffers of 4 to 7 bytes |
| PluginObject.Set | src/mts/object/plugin.h:213-216 | every plug-in write is refused as an unknown property |
| BoxObject.Exists | src/mts/object/box.h:31-55 | the box has exactly its listed properties |
| BoxObject.SettableAreListed | src/mts/object/box.h:57-88 | the settable properties (name, acquired) are listed ones |
| BoxObject.IsSettable | src/mts/object/box.h:57-88 | only the name and the acquired flag are settable; unlisted selectors are unknown |
| BoxObject.Size | src/mts/object/box.h:90-170 | a size for every listed selector, unknown otherwise; owned objects are empty, the device list holds one id |
| BoxObject.Get | src/mts/object/box.h:172-289 | unknown selectors fail; reads fit the buffer and agree with size when it holds them; short buffers fail for fixed values; the name and acquired flag read the driver state; the device list is an id prefix |
| BoxObject.Set | src/mts/object/box.h:291-333 | only the name and the acquired flag are written, the rest refused as unknown; a settable write with a short name buffer or an acquired size other than one UInt32 is a bad size; an accepted write renames the box or sets the flag (any nonzero word is acquired) and reports the written property first, the acquired flag also the box device list |
| DriverLists.PluginDeviceList | src/driver.cpp:640-649 | writes the prefix of the plug-in's device list the read reports, and nothing past it |
| DriverLists.PluginBoxList | src/driver.cpp:651-658 | writes the prefix of the box list the read reports, and nothing past it |
| DriverLists.PluginObjectList | src/driver.cpp:660-677 | writes the prefix of the owned-object list the read reports, and nothing past it |
| DriverLists.BoxDeviceList | src/driver.cpp:431-438 | writes the prefix of the box's device list the read reports, and nothing past it |
| DriverLists.SampleRates | src/driver.cpp:476-483 | writes min(itemCount, rate count) ranges, the prefix of the rate ranges, each pinned to one rate |
| DriverLists.RangedDescriptions | src/driver.cpp:567-580 | writes one ranged description per rate for the first itemCount rates and nothing past them |
| DeviceObject.Matching | src/driver.cpp:449-463 | the ids of the table entries the filter selects, in table order, so never more than the table (which ids, both directions, is MatchingMembers) |
| DeviceObject.MatchingMembers | src/mts/object/device.h:622-697 | an id is listed exactly when an entry the filter selects carries it |
| DeviceObject.Partition | src/mts/object/device.h:566-620 | two complementary filters (input/output, streams/controls) list every object exactly once between them |
| DeviceObject.ScopesPartition | src/mts/object/device.h:566-584 | the input-scope and output-scope object lists are together the device's objects, as multisets |
| DeviceObject.KindsPartition | src/mts/object/device.h:586-620 | the stream list and the control list are together the device's objects, as multisets |
| DeviceObject.ObjectLists | src/driver.cpp:449-463 | the device owns, in order, the input stream, volume, mute, then the output ones |
| DeviceObject.ScopedObjectLists | src/mts/object/device.h:630-650 | the input and output scopes list the three objects of their direction |
| DeviceObject.StreamLists | src/mts/object/device.h:652-685 | the stream lists are both streams, the input stream, and the output stream |
| DeviceObject.ControlLists | src/mts/object/device.h:687-697 | the control list is the four controls in table order |
| DeviceObject.ListSize | src/mts/object/device.h:566-620 | the counting loops return the length of the filtered list |
| DeviceObject.FillAllObjects | src/mts/object/device.h:622-628 | writes min(itemCount, table size) ids, the prefix of the whole list, and nothing past it |
| DeviceObject.FillFiltered | src/mts/object/device.h:630-697 | the walk with two indices writes min(itemCount, filtered length) ids, the prefix of the filtered list, and nothing past it |
| DeviceObject.ScopeFilter | src/mts/object/device.h:253-546 | a scoped list read knows the global, input and output scopes and no other |
| DeviceObject.Exists | src/mts/object/device.h:36-70 | the device has its listed properties; the default-device, latency, safety-offset and channel properties only in the input and output scopes |
| DeviceObject.IsSettable | src/mts/object/device.h:72-111 | only the nominal sample rate is settable; the scope is not consulted |
| DeviceObject.Size | src/mts/object/device.h:113-251 | unknown selectors fail; scoped lists in an unknown scope leave the size unwritten; list sizes count the filtered table; the rate list and channel layout sizes follow the configuration |
| DeviceObject.RateList | src/mts/object/device.h:253-546 | a rate-list read returns min(capacity / 16, rate count) ranges, a prefix of the rate ranges, within the buffer |
| DeviceObject.ScopedList | src/mts/object/device.h:253-546 | a scoped list read is an id prefix of the filtered list; in an unknown scope nothing is written and the capacity rounded to whole ids is reported |
| DeviceObject.ScopedListFits | src/mts/object/device.h:113-251 | a buffer that holds a scoped list's size receives the whole list |
| DeviceObject.Get | src/mts/object/device.h:253-546 | unknown selectors fail; reads fit the buffer; lists are id prefixes; the nominal rate and running flag read the driver state; a missing icon resource is an unspecified error |
| DeviceObject.GetAgreesWithSize | src/mts/object/device.h:253-546 | a buffer holding the reported size receives exactly that many bytes (the icon only when found); a short buffer for a value that is not a list fails with a bad-size error |
| DeviceObject.Set | src/mts/object/device.h:548-561 | only a nominal-sample-rate write of exactly one Float64 is accepted, and it is handed to the rate check; another size is a bad size, every other property unknown; the device never changes state by itself |
| StreamObject.Exists | src/mts/object/stream.h:29-48 | the stream has exactly its listed properties |
| StreamObject.IsSettable | src/mts/object/stream.h:50-76 | only the active flag and the two formats are settable |
| StreamObject.RangedDescriptions | src/driver.cpp:567-580 | one ranged description per supported rate: the device format at that rate, with the range pinned to it |
| StreamObject.Size | src/mts/object/stream.h:78-132 | a size for every listed selector, unknown otherwise; the format lists hold one description per rate |
| StreamObject.FormatList | src/mts/object/stream.h:134-228 | a format-list read returns min(capacity / 56, rate count) descriptions, a prefix of the list, within the buffer |
| StreamObject.Get | src/mts/object/stream.h:134-228 | unknown selectors fail; reads agree with size when the buffer holds them; IsActive reads the stream's own active flag from the driver state; direction and terminal type follow the stream's own direction; both formats are the device format at the driver's sample rate |
| StreamObject.Set | src/mts/object/stream.h:230-264 | an active write is applied exactly when it carries at least one UInt32, activating on a nonzero word and reporting the active flag; a format write is handed to the format check exactly when it is one basic description; other sizes of settable properties are bad sizes, everything else unknown |
| VolumeControl.Exists | src/mts/object/volume_control.h:30-47 | the volume control has exactly its listed properties |
| VolumeControl.IsSettable | src/mts/object/volume_control.h:49-74 | only the scalar and decibel values are settable |
| VolumeControl.Size | src/mts/object/volume_control.h:76-128 | a size for every listed selector, unknown otherwise |
| VolumeControl.Get | src/mts/object/volume_control.h:130-209 | a read succeeds exactly when the buffer holds the size and reports that size; a short buffer fails; scope and element read the control's own |
| VolumeControl.Set | src/mts/object/volume_control.h:211-251 | a level write needs one Float32, asks for the master gain the curve gives and reports both level properties on a change |
| MuteControl.Exists | src/mts/object/mute_control.h:25-38 | the mute control has exactly its listed properties |
| MuteControl.IsSettable | src/mts/object/mute_control.h:40-60 | only the boolean value is settable |
| MuteControl.Size | src/mts/object/mute_control.h:62-98 | a size for every listed selector, unknown otherwise |
| MuteControl.Get | src/mts/object/mute_control.h:100-152 | a read succeeds exactly when the buffer holds the size; the value reads the master mute |
| MuteControl.Set | src/mts/object/mute_control.h:154-175 | a write needs exactly one UInt32; it changes and reports the mute exactly when the new value differs, and otherwise changes nothing |
| RateChange.ChangeAction | src/driver.cpp:498 | the change action for a supported rate is that rate, as an integer, without loss |
| RateChange.RateRequest | src/driver.cpp:485-503 | an unsupported rate is an illegal operation; a supported rate is accepted, and a change requested exactly when it differs from the current rate, with that rate as the action |
| RateChange.FormatRequest | src/driver.cpp:582-605 | a description that is not the device's format at its own rate is an unsupported format; otherwise the write is checked as a rate write |
| RateChange.PerformStatus | src/driver.cpp:974-979 | performing succeeds exactly on the device for a supported rate; every refusal is a bad-object error |
| RateChange.RequestedChangesPerform | src/driver.cpp:485-503 | every change the driver requests is one it then accepts to perform, and names the requested rate |
| RateChange.FormatWriteIsRateWrite | src/driver.cpp:582-605 | writing the device's format at a rate is the same as writing that rate |
| Settings.InitialAcquired | src/driver.cpp:840-863 | the box starts acquired unless storage holds false or the number zero |
| Settings.InitialName | src/driver.cpp:865-885 | the box name is a stored string, otherwise the default name |
| Settings.SettingsSurviveRestart | src/driver.cpp:349-362 | a saved acquired flag or name reads back as saved at the next initialization; a deleted name comes back as the default |
| Dispatch.ObjectOf | src/driver.cpp:686-717 | ids 1 to 9 name an object, whose id is that id; any other id names none |
| Dispatch.IdsNameTheirObjects | src/driver.cpp:24-38 | every object is reached through its own id, so ids are distinct |
| Dispatch.KindExists | src/driver.cpp:1013-1014 | each object answers existence with its own list; every object has the base audio-object properties (base class, class, owner, owned objects) |
| Dispatch.KindSettable | src/driver.cpp:1027-1030 | an object calls a property settable only if it exists there, and its only failure is an unknown property |
| Dispatch.KindSize | src/driver.cpp:1044-1048 | every existing property has a size, and the only failure is an unknown property |
| Dispatch.KindGet | src/driver.cpp:1066-1071 | no object reports more bytes than the buffer holds |
| Dispatch.KindSet | src/driver.cpp:1084-1090 | an object accepts, delegates or ignores a write only for a property it calls settable |
| Dispatch.HasProperty | src/driver.cpp:1007-1015 | no address or an unknown object means no property; given an address, the base properties exist exactly on known objects |
| Dispatch.DeviceTableMatchesRouting | src/driver.cpp:449-463 | each entry of the device's object table routes to a stream or control of the entry's direction, a stream exactly when the table says so |
| Dispatch.SettableExists | src/driver.cpp:1018-1031 | a property can be settable only if it exists on its object |
| Dispatch.SetRefusesUnsettable | src/driver.cpp:1084-1090 | an object refuses a write as an unknown property exactly when it does not call the property settable |
| Dispatch.PropertySettable | src/driver.cpp:1018-1031 | a missing address or out-pointer is an illegal operation, an unknown object a bad object; an existing property answers settable or not; settable implies it exists |
| Dispatch.PropertyDataSize | src/driver.cpp:1034-1049 | the same pointer and object errors; an existing property always has a size; an unknown property does not exist |
| Dispatch.PropertyData | src/driver.cpp:1051-1072 | the same pointer and object errors; no read reports more bytes than the buffer holds |
| Dispatch.ReadsMatchSizes | src/driver.cpp:1034-1072 | on every object, a read into a buffer that holds the reported size returns exactly that many bytes (except a UID translation, and an icon that cannot be found) |
| Dispatch.Amplitude | src/driver.cpp:291-314 | a scalar write takes the curve's amplitude; a decibel write never goes below the minimum amplitude |
| Dispatch.SameNameIgnoringCase | src/driver.cpp:408 | the case-insensitive comparison; names that match have equal lengths (its meaning is SameNameIsFoldedEquality) |
| Dispatch.Renames | src/driver.cpp:389-410 | a rename happens only to a different name: clearing or setting a missing name always renames, two names rename exactly when they differ after folding case |
| Dispatch.SameNameIsFoldedEquality | src/driver.cpp:408 | two names match ignoring case exactly when their lower-case forms are equal |
| Dispatch.NameMatchIsEquivalence | src/driver.cpp:408 | the name comparison is reflexive, symmetric and transitive |
| Dispatch.ApplyEffect | src/driver.cpp:276-552 | a setter reports a change exactly when the state changed, and when nothing changed it defers and saves nothing; the acquired flag, mute and gain become the given values, stream activation sets only that direction's flag; stream, mute and volume setters defer and save nothing; no setter touches the rate or the IO state (the rename's new state is RenameIsSaved) |
| Dispatch.RequestOutcome | src/driver.cpp:485-503 | a rate or format check never changes the state or saves anything, and a refused one defers nothing |
| Dispatch.Write | src/driver.cpp:1074-1097 | no address is an illegal operation and an unknown object a bad object; unknown property exactly when not settable; an error changes, reports, defers and saves nothing; rate and IO state are kept; changes are reported exactly when the state changed |
| Dispatch.ControlsShareMasterValues | src/driver.cpp:276-314 | writes through the input and output volume (mute) controls have identical outcomes: both drive the one master value |
| Dispatch.MuteWriteReadsBack | src/mts/object/mute_control.h:154-175 | a mute write through either control sets the master mute, reports one change exactly when it differs, and both controls then read it |
| Dispatch.MuteReadsState | src/mts/object/mute_control.h:100-152 | either mute control reads the master mute through the entry point |
| Dispatch.VolumeWriteSetsGain | src/mts/object/volume_control.h:211-251 | a level write through either control sets the master gain to the curve's amplitude and reports both levels exactly when the gain changed |
| Dispatch.StreamActiveWriteReadsBack | src/mts/object/stream.h:235-246 | an IsActive write of at least one UInt32 succeeds, sets only that stream's flag to the word being nonzero, reports the active flag exactly when it changed, defers and saves nothing, and the stream then reads the written flag |
| Dispatch.StreamActiveWrite | src/driver.cpp:534-552 | the whole outcome of an IsActive write: the direction's flag set, one changed address exactly when the flag differed, nothing deferred or saved |
| Dispatch.StreamActiveReadsState | src/mts/object/stream.h:163-166 | a stream's IsActive read reports that stream's own flag |
| Dispatch.Performed | src/driver.cpp:984 | performing a change sets the rate to the action and changes nothing else |
| Dispatch.RateWriteRoundTrip | src/driver.cpp:485-503 | a rate write changes no state; it succeeds exactly for supported rates and defers one change request exactly when the rate differs; once performed, the device reads the rate and the stream reads its format at that rate |
| Dispatch.PerformedRateReads | src/driver.cpp:974-993 | after a performed change the device and both streams report the new rate |
| Dispatch.StreamReportsRate | src/driver.cpp:554-565 | a stream's virtual format is the device format at the current rate |
| Dispatch.FormatWriteIsRateWrite | src/driver.cpp:582-605 | writing a stream's format as the device format at a rate has the same outcome as writing that rate to the device |
| Dispatch.AcquireRepublishesDevice | src/driver.cpp:364-384 | acquiring or releasing the box sets the flag; on a change it reports the two box properties, defers the plug-in's device-list notification and saves the flag; the plug-in's device list then holds the device exactly when acquired |
| Dispatch.AcquireWrite | src/driver.cpp:364-384 | the full outcome of an acquired write, unchanged or changed |
| Dispatch.RenameIsSaved | src/driver.cpp:386-417 | a real rename sets the name, reports it and saves it (a cleared name is deleted and reads back as the default); a same-name write changes and saves nothing |
| Dispatch.WritesAreIdempotent | src/driver.cpp:1074-1097 | repeating any write answers the same, changes nothing more and reports and saves nothing |
| Dispatch.AppliedTwice | src/driver.cpp:364-417 | a setter applied to the state it produced reports no change |
| IoCycle.RingStart | src/driver.cpp:1255-1259 | a transfer starts on ring frame `sampleTime % RingFrames` (the masked sample time) |
| IoCycle.Split | src/driver.cpp:1260-1268 | the two copies add up to the transfer; the first runs to the ring end or the transfer end; a second copy exists exactly when the transfer passes the ring end |
| IoCycle.Distance | src/driver.cpp:1260-1268 | going round the ring, `frame` lies `d < RingFrames` frames past `start` |
| IoCycle.ReadWindow | src/driver.cpp:1285-1294 | the frames × channels samples a read delivers from the start frame, going round the ring (what they are: WriteThenRead, ReadRing) |
| IoCycle.RingAfterWrite | src/driver.cpp:1302-1316 | the ring after a write keeps its size; WriteLands and WriteKeepsRest state where each sample goes and what stays |
| IoCycle.WriteThenRead | src/driver.cpp:1271-1316 | reading the window just written returns exactly the samples written |
| IoCycle.WriteLands | src/driver.cpp:1309-1315 | channel c of the i-th written frame holds channel c of the i-th input frame |
| IoCycle.WriteKeepsRest | src/driver.cpp:1309-1315 | a ring sample outside the written window keeps its value |
| IoCycle.SampleOfTransfer | src/driver.cpp:1288-1294 | the j-th transfer sample is read from the first copy's range or the ring's start, as the split says |
| IoCycle.SlotOfWrite | src/driver.cpp:1309-1315 | each ring sample receives the first copy, the second copy or nothing |
| IoCycle.ReadRing | src/driver.cpp:1288-1294 | the two copies deliver exactly the ring window at the start frame; the rest of the buffer is unchanged |
| IoCycle.WriteRing | src/driver.cpp:1309-1315 | after the two copies the ring is the ring as it was, with the written window replaced by the input |
| IoCycle.SilenceIsStaleness | src/driver.cpp:1275 | unmuted, a read is served from the ring exactly when its window ends by the last output time |
| IoCycle.ReadIsSilent | src/driver.cpp:1275 | a read is silent whenever the device is muted, and whenever its window reaches past the last output written |
| IoCycle.NextPeriodCount | src/driver.cpp:1177-1186 | the period count moves on by at most one |
| IoCycle.StampOf | src/driver.cpp:1189-1191 | the n-th stamp is sample time n times the period and host time the anchor plus n periods, with seed 1 |
| IoCycle.AdvancesWhenDue | src/driver.cpp:1184-1186 | the count moves on exactly when the next period's host time has been reached |
| IoCycle.StampNeverAhead | src/driver.cpp:1177-1191 | a stamp that was not in the future stays not in the future |
| IoCycle.PeriodCountMonotone | src/driver.cpp:1177-1186 | a later call never reports an earlier period |
| IoCycle.StampsOrdered | src/driver.cpp:1189-1190 | later periods have later sample and host times |
| IoCycle.CatchesUpOnePeriod | src/driver.cpp:1184-1186 | however far behind, one call moves on one period only, and the next is still due |
| IoCycle.StartStep | src/driver.cpp:1110-1128 | a start at the 64-bit maximum is an illegal operation and keeps the count; otherwise it counts one more client |
| IoCycle.StopStep | src/driver.cpp:1141-1153 | a stop with no client is an illegal operation; otherwise it counts one client less |
| IoCycle.StartsCount | src/driver.cpp:1110-1128 | k starts below the maximum count k more clients |
| IoCycle.StopsCount | src/driver.cpp:1141-1153 | k stops with at least k clients count k fewer |
| IoCycle.StartsThenStops | src/driver.cpp:1104-1156 | as many stops as starts bring an idle device back to idle |
| IoCycle.ExtraStopRefused | src/driver.cpp:1141-1143 | one stop more than there were starts is refused and leaves the device idle |
| Driver.Zeros | src/mts/dsp.h:9-19 | n silent samples |
| Driver.Retained | src/driver.cpp:808-820 | a retain counts one more below the 32-bit maximum and saturates there |
| Driver.Released | src/driver.cpp:826-838 | a release counts one less above zero and stays at zero |
| Driver.ReleaseUndoesRetain | src/driver.cpp:808-838 | a release undoes a retain below the maximum; extra releases stay at zero; the maximum does not wrap |
| Driver.DeviceCallStatus | src/driver.cpp:930-959 | creating and destroying devices is unsupported; client add/remove, IO begin/end and abort accept only the device id and otherwise answer bad object |
| Driver.TicksPerPeriod | src/driver.cpp:987-990 | the whole number of host ticks in one zero-time-stamp period at the rate: the floor of clock frequency × period frames / rate |
| Driver.Transfers | src/driver.cpp:1240-1250 | the calls that move samples are ones DoIOOperation accepts |
| Driver.DoIOStatus | src/driver.cpp:1240-1246 | DoIOOperation refuses only with a bad object; when it accepts, the id is the device's and both transfers are ones the device does |
| Driver.WillDoIOOperation | src/driver.cpp:1198-1224 | only the device is accepted; it does reading input and writing the mix, always in place |
| Driver.Driver.constructor | src/driver.cpp:725-728 | the driver starts with the fields' initial values (driver.cpp:136-154): acquired box, no name, default rate, no IO, both streams active, unit volume, unmuted, no ring, clear buffer; the constructor sets the reference count to 0 |
| Driver.Driver.AddRef | src/driver.cpp:808-820 | the count becomes `Retained` of the old count and is returned |
| Driver.Driver.Release | src/driver.cpp:826-838 | the count becomes `Released` of the old count and is returned |
| Driver.Driver.Initialize | src/driver.cpp:908-924 | the box flag and name come from storage as the settings loaders read them, and the ticks per period from the host clock at the current rate |
| Driver.Driver.StartIO | src/driver.cpp:1104-1131 | the answer and new count are `StartStep` (bad object for another id); the first client anchors the time line at `now` and gets a fresh silent ring; later clients change nothing else |
| Driver.Driver.StopIO | src/driver.cpp:1135-1156 | the answer and new count are `StopStep` (bad object for another id); the last client's stop releases the ring; otherwise the ring is kept |
| Driver.Driver.GetZeroTimeStamp | src/driver.cpp:1166-1194 | keeps the driver valid; another id is a bad object and changes nothing; otherwise the count moves as `NextPeriodCount` says and the answer is `StampOf` the new count |
| Driver.Driver.DoIOOperation | src/driver.cpp:1237-1319 | bad device or stream ids are refused; other operations change nothing; a read delivers silence (and clears the ring) when muted or stale, otherwise the ring window scaled by the volume; a write stores the buffer in the ring and sets the last output time |
| Driver.Driver.ReadInputCycle | src/driver.cpp:1271-1299 | the read half: silent buffer and ring, or the scaled ring window; the rest of the buffer unchanged |
| Driver.Driver.WriteMixCycle | src/driver.cpp:1302-1316 | the write half: the ring becomes `RingAfterWrite` of the buffer at the output time |
| Driver.Driver.SetPropertyData | src/driver.cpp:1074-1097 | the answer and new state are `Dispatch.Write`'s; its changed properties are reported to the host in one call only when there are any, and its deferred calls and storage writes are recorded |
| Driver.Driver.PerformConfigurationChange | src/driver.cpp:974-993 | the answer is `PerformStatus`; on success the rate becomes the action, nothing else in the property state changes, and the ticks per period follow the new rate; on a refusal nothing changes |

## Left out

- Floating point.
  - Samples, gains and rates are `real`.
  - The volume curve (dB/amplitude/slider conversions in `util.h` and the volume
    control's conversions) is an abstract `Dispatch.LevelCurve`. Properties that
    depend on `powf`, `log10f` or `sqrtf` are not stated.
  - The Float32 rounding of gain and samples is not modelled.
- Driver.TicksPerPeriod: the host ticks per frame are a Float64 in the driver. The model keeps a whole number of host ticks per zero-time-stamp period, computed once with integer division. The float rounding of the stamp's host time is not modelled.
- Driver.Driver.DoIOOperation: sample times are whole frames (`nat`). The Float64 sample times of the host, and their conversion to UInt64 and UInt32, are not modelled.
- Driver.Driver.DoIOOperation: the host's guarantees are preconditions:
  - IO is running when a transfer happens, so the ring exists;
  - a transfer is at most one ring of frames;
  - the buffer holds the transfer.

  The driver checks none of these.
- Driver.Driver.StartIO: the ring's `calloc` is assumed to succeed.
- The state mutex and the IO mutex are left out, as are concurrency and the global dispatch queue. Deferred blocks are recorded, not run.
- CoreFoundation reference counting (`CFRetain`/`CFRelease`) of box names and settings is left out; names are values.
- Dispatch.SameNameIgnoringCase: `CFStringCompare` with case-insensitive comparison is modelled as ASCII case folding only.
- Settings.InitialAcquired:
  - a stored number is read as a whole number and tested against zero;
  - reading into an SInt32 (and what that does to numbers outside its range) is not modelled;
  - a failed read and a missing value are both `NoValue`.
- QueryInterface and the COM/CFPlugIn plumbing are left out: the factory, the interface table and the UUID comparison. QueryInterface's own increment of the reference count (unsaturated, unlike AddRef) is left out with it.
- Driver.WillDoIOOperation: the out-pointers are always present. The driver's checks for null pointers there are not modelled.
- DeviceObject.Get:
  - whether the icon resource can be found is a parameter;
  - the URL is not built;
  - the bundle lookup is not modelled.
- BeginIOOperation, EndIOOperation, AddDeviceClient, RemoveDeviceClient and AbortDeviceConfigurationChange only check the device id. All of them are `Driver.DeviceCallStatus`.
- Property-change notifications carry their addresses. The host's handling of them, and the host's calls into storage, are outside the driver.

## Findings

| source | as written | input that shows it | evidently intended | confidence | as-written member | corrected member |
|---|---|---|---|---|---|---|
| src/mts/object/plugin.h:202-203 | the resource-bundle read refuses buffers smaller than `sizeof(AudioObjectID)` (4 bytes) and then writes a `CFStringRef` (8 bytes) | a GetPropertyData of kAudioPlugInPropertyResourceBundle with a 4-byte buffer: the check passes, 8 bytes are written and reported | refuse buffers smaller than `sizeof(CFStringRef)`, as the matching size query (plugin.h:106-107) reports | not executed | PluginObject.ResourceBundleAsWritten, PluginObject.ResourceBundleOverrun | PluginObject.Get, PluginObject.ResourceBundleCorrected |
