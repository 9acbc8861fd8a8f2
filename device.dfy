// The device object: it owns one stream and two controls per direction, reports
// the nominal sample rate and the supported rates, and hands a sample-rate write
// to the configuration-change check.
module DeviceObject {
  import opened Properties
  import Config
  import Util

  datatype Kind = StreamKind | ControlKind

  /** One object the device owns: its id, whether it is a stream or a control, its direction. */
  datatype Entry = Entry(id: nat, kind: Kind, dir: Direction)

  /**
   * The device's objects, in the order every list reports them: the input stream,
   * volume and mute (ids 4, 5, 6), then the output ones (ids 7, 8, 9). The ids are
   * written as numerals so that the lists below can be computed; ObjectLists
   * states them with their names.
   */
  const ObjectsDescription: seq<Entry> := [
    Entry(4, StreamKind, In),
    Entry(5, ControlKind, In),
    Entry(6, ControlKind, In),
    Entry(7, StreamKind, Out),
    Entry(8, ControlKind, Out),
    Entry(9, ControlKind, Out)]

  /** The sub-lists the device reports: owned objects and streams by scope, and controls. */
  datatype ListFilter = AllObjects | ObjectsIn(dir: Direction) | AllStreams | StreamsIn(dir: Direction) | Controls

  predicate Selects(f: ListFilter, e: Entry) {
    match f
    case AllObjects => true
    case ObjectsIn(d) => e.dir == d
    case AllStreams => e.kind == StreamKind
    case StreamsIn(d) => e.kind == StreamKind && e.dir == d
    case Controls => e.kind == ControlKind
  }

  /** The id of `e` if `f` selects it. */
  function Pick(f: ListFilter, e: Entry): seq<nat> {
    if Selects(f, e) then [e.id] else []
  }

  /** The ids of the entries of `s` that `f` selects, in order. */
  function Matching(s: seq<Entry>, f: ListFilter): (ids: seq<nat>)
    ensures |ids| <= |s|
  {
    if |s| == 0 then [] else Pick(f, s[0]) + Matching(s[1..], f)
  }

  /** The list of a concatenation is the concatenation of the lists. */
  lemma {:induction false} MatchingAppend(s: seq<Entry>, t: seq<Entry>, f: ListFilter)
    ensures Matching(s + t, f) == Matching(s, f) + Matching(t, f)
  {
    if |s| > 0 {
      assert (s + t)[1..] == s[1..] + t;
      MatchingAppend(s[1..], t, f);
    } else {
      assert s + t == t;
    }
  }

  /** Extending the entries by one extends the list by that entry's pick. */
  lemma MatchingStep(s: seq<Entry>, n: nat, f: ListFilter)
    requires 0 < n <= |s|
    ensures Matching(s[..n], f) == Matching(s[..n - 1], f) + Pick(f, s[n - 1])
  {
    assert s[..n] == s[..n - 1] + [s[n - 1]];
    MatchingAppend(s[..n - 1], [s[n - 1]], f);
    assert Matching([s[n - 1]], f) == Pick(f, s[n - 1]) + Matching([], f);
  }

  /** The list of a prefix is a prefix of the list. */
  lemma PrefixMatching(s: seq<Entry>, n: nat, f: ListFilter)
    requires n <= |s|
    ensures Matching(s[..n], f) <= Matching(s, f)
  {
    assert s == s[..n] + s[n..];
    MatchingAppend(s[..n], s[n..], f);
  }

  /** An id is listed exactly when a selected entry carries it. */
  lemma {:induction false} MatchingMembers(s: seq<Entry>, f: ListFilter, id: nat)
    ensures id in Matching(s, f) <==> exists i :: 0 <= i < |s| && Selects(f, s[i]) && s[i].id == id
  {
    if |s| > 0 {
      MatchingMembers(s[1..], f, id);
      assert forall i :: 1 <= i < |s| ==> s[1..][i - 1] == s[i];
      if exists i :: 0 <= i < |s| && Selects(f, s[i]) && s[i].id == id {
        var i :| 0 <= i < |s| && Selects(f, s[i]) && s[i].id == id;
        if i > 0 {
          assert s[1..][i - 1] == s[i];
        }
      }
    }
  }

  /** Without a filter the list is every id, in order. */
  lemma {:induction false} MatchingAll(s: seq<Entry>)
    ensures |Matching(s, AllObjects)| == |s|
    ensures forall i :: 0 <= i < |s| ==> Matching(s, AllObjects)[i] == s[i].id
  {
    if |s| > 0 {
      MatchingAll(s[1..]);
      assert Matching(s, AllObjects) == [s[0].id] + Matching(s[1..], AllObjects);
    }
  }

  /** Two filters that split every entry between them: the two scopes, or streams and controls. */
  predicate Complementary(f: ListFilter, g: ListFilter) {
    (f == ObjectsIn(In) && g == ObjectsIn(Out)) || (f == AllStreams && g == Controls)
  }

  lemma PicksSplit(f: ListFilter, g: ListFilter, e: Entry)
    requires Complementary(f, g)
    ensures multiset(Pick(f, e)) + multiset(Pick(g, e)) == multiset(Pick(AllObjects, e))
  {
  }

  /** Complementary filters, together, list every entry once. */
  lemma {:induction false} Partition(s: seq<Entry>, f: ListFilter, g: ListFilter)
    requires Complementary(f, g)
    ensures multiset(Matching(s, f)) + multiset(Matching(s, g)) == multiset(Matching(s, AllObjects))
  {
    if |s| > 0 {
      Partition(s[1..], f, g);
      SplitFirst(s, f);
      SplitFirst(s, g);
      SplitFirst(s, AllObjects);
      PicksSplit(f, g, s[0]);
    }
  }

  /** The objects of the two scopes, together, are the device's objects. */
  lemma ScopesPartition(s: seq<Entry>)
    ensures multiset(Matching(s, ObjectsIn(In))) + multiset(Matching(s, ObjectsIn(Out)))
      == multiset(Matching(s, AllObjects))
  {
    Partition(s, ObjectsIn(In), ObjectsIn(Out));
  }

  /** Streams and controls, together, are the device's objects. */
  lemma KindsPartition(s: seq<Entry>)
    ensures multiset(Matching(s, AllStreams)) + multiset(Matching(s, Controls))
      == multiset(Matching(s, AllObjects))
  {
    Partition(s, AllStreams, Controls);
  }

  /** The multiset of a list: the first entry's pick plus that of the rest. */
  lemma SplitFirst(s: seq<Entry>, f: ListFilter)
    requires |s| > 0
    ensures multiset(Matching(s, f)) == multiset(Pick(f, s[0])) + multiset(Matching(s[1..], f))
  {
  }

  /** The device's owned objects. */
  lemma ObjectLists()
    ensures Matching(ObjectsDescription, AllObjects)
      == [StreamInputId, VolumeInputId, MuteInputId, StreamOutputId, VolumeOutputId, MuteOutputId]
  {
  }

  /** The device's owned objects by scope. */
  lemma ScopedObjectLists()
    ensures Matching(ObjectsDescription, ObjectsIn(In)) == [StreamInputId, VolumeInputId, MuteInputId]
    ensures Matching(ObjectsDescription, ObjectsIn(Out)) == [StreamOutputId, VolumeOutputId, MuteOutputId]
  {
  }

  /** The device's streams by scope. */
  lemma StreamLists()
    ensures Matching(ObjectsDescription, AllStreams) == [StreamInputId, StreamOutputId]
    ensures Matching(ObjectsDescription, StreamsIn(In)) == [StreamInputId]
    ensures Matching(ObjectsDescription, StreamsIn(Out)) == [StreamOutputId]
  {
  }

  /** The device's controls. */
  lemma ControlLists()
    ensures Matching(ObjectsDescription, Controls) == [VolumeInputId, MuteInputId, VolumeOutputId, MuteOutputId]
  {
  }

  // The size and list helpers are written over any object description `desc`, as
  // the device template is; this driver instantiates them with ObjectsDescription.

  /** Counts the entries `f` selects. */
  method ListSize(desc: seq<Entry>, f: ListFilter) returns (count: nat)
    ensures count == |Matching(desc, f)|
  {
    count := 0;
    var i := 0;
    while i < |desc|
      invariant 0 <= i <= |desc|
      invariant count == |Matching(desc[..i], f)|
    {
      MatchingStep(desc, i + 1, f);
      if Selects(f, desc[i]) {
        count := count + 1;
      }
      i := i + 1;
    }
    assert desc[..i] == desc;
  }

  /** Writes the first ids of the whole list: at most `itemCount`, one per entry. */
  method FillAllObjects(desc: seq<Entry>, objs: array<nat>, itemCount: nat) returns (count: nat)
    requires itemCount <= objs.Length
    modifies objs
    ensures count == if itemCount < |Matching(desc, AllObjects)| then itemCount else |Matching(desc, AllObjects)|
    ensures objs[..count] == Matching(desc, AllObjects)[..count]
    ensures forall j :: count <= j < objs.Length ==> objs[j] == old(objs[j])
  {
    MatchingAll(desc);
    count := if itemCount < |desc| then itemCount else |desc|;
    var i := 0;
    while i < count
      invariant 0 <= i <= count
      invariant forall j :: 0 <= j < i ==> objs[j] == desc[j].id
      invariant forall j :: count <= j < objs.Length ==> objs[j] == old(objs[j])
    {
      objs[i] := desc[i].id;
      i := i + 1;
    }
  }

  /** After `i` entries a walk has listed `k` ids. */
  predicate Walked(desc: seq<Entry>, f: ListFilter, i: nat, k: nat)
    requires i <= |desc|
  {
    k == |Matching(desc[..i], f)|
  }

  /**
   * One step of a walk that has listed `k` ids after `i` entries: a selected
   * entry carries the `k`-th id of the whole list, any other entry adds none.
   */
  lemma WalkStep(desc: seq<Entry>, f: ListFilter, i: nat, k: nat)
    requires i < |desc| && Walked(desc, f, i, k)
    ensures Selects(f, desc[i]) ==> k < |Matching(desc, f)| && Matching(desc, f)[k] == desc[i].id
    ensures Walked(desc, f, i + 1, k + |Pick(f, desc[i])|)
  {
    MatchingStep(desc, i + 1, f);
    PrefixMatching(desc, i + 1, f);
    assert desc[..i + 1][..i] == desc[..i];
    if Selects(f, desc[i]) {
      assert Matching(desc[..i + 1], f) == Matching(desc[..i], f) + [desc[i].id];
      assert Matching(desc[..i + 1], f)[k] == desc[i].id;
    }
  }

  /** A walk that has listed fewer ids than the whole list has entries left. */
  lemma WalkUnfinished(desc: seq<Entry>, f: ListFilter, i: nat, k: nat)
    requires i <= |desc| && k < |Matching(desc, f)|
    requires Walked(desc, f, i, k)
    ensures i < |desc|
  {
    assert desc[..|desc|] == desc;
  }

  /**
   * Writes the first ids of a filtered list: it walks the entries with `i` and
   * writes the `k`-th selected id until `k` reaches the requested count.
   */
  method FillFiltered(desc: seq<Entry>, f: ListFilter, objs: array<nat>, itemCount: nat) returns (count: nat)
    requires itemCount <= objs.Length
    modifies objs
    ensures count == if itemCount < |Matching(desc, f)| then itemCount else |Matching(desc, f)|
    ensures objs[..count] == Matching(desc, f)[..count]
    ensures forall j :: count <= j < objs.Length ==> objs[j] == old(objs[j])
  {
    var size := ListSize(desc, f);
    count := if itemCount < size then itemCount else size;
    ghost var ids := Matching(desc, f);
    var i, k := 0, 0;
    while k < count
      invariant 0 <= i <= |desc|
      invariant k <= count
      invariant Walked(desc, f, i, k)
      invariant forall j :: 0 <= j < k ==> objs[j] == ids[j]
      invariant forall j :: count <= j < objs.Length ==> objs[j] == old(objs[j])
      decreases |desc| - i
    {
      WalkUnfinished(desc, f, i, k);
      WalkStep(desc, f, i, k);
      if Selects(f, desc[i]) {
        objs[k] := desc[i].id;
        k := k + 1;
      }
      i := i + 1;
    }
    assert objs[..count] == ids[..count];
  }


  /** The list an OwnedObjects or Streams read reports for a scope; none for another scope. */
  function ScopeFilter(scope: Scope, objects: bool): (f: Option<ListFilter>)
    ensures f.None? <==> scope.OtherScope?
  {
    match scope
    case Global => Some(if objects then AllObjects else AllStreams)
    case Input => Some(if objects then ObjectsIn(In) else StreamsIn(In))
    case Output => Some(if objects then ObjectsIn(Out) else StreamsIn(Out))
    case OtherScope(_) => None
  }

  /** Every selector the device answers size and get for. */
  const Selectors: set<Selector> := {
    BaseClass, Class, Owner, Name, Manufacturer, OwnedObjects, DeviceUid, ModelUid,
    TransportType, RelatedDevices, ClockDomain, DeviceIsAlive, DeviceIsRunning, ControlList,
    NominalSampleRate, AvailableNominalSampleRates, IsHidden, ZeroTimeStampPeriod, Icon, Streams,
    CanBeDefaultDevice, CanBeDefaultSystemDevice, Latency, SafetyOffset,
    PreferredChannelsForStereo, PreferredChannelLayout }

  /** The selectors that exist only in the input and output scopes. */
  const ScopedSelectors: set<Selector> := {
    CanBeDefaultDevice, CanBeDefaultSystemDevice, Latency, SafetyOffset,
    PreferredChannelsForStereo, PreferredChannelLayout }

  predicate Exists(a: Address)
    ensures Exists(a) <==>
      (a.selector in Selectors && (a.selector in ScopedSelectors ==> a.scope == Input || a.scope == Output))
  {
    match a.selector
    case BaseClass | Class | Owner | Name | Manufacturer | OwnedObjects | DeviceUid | ModelUid
      | TransportType | RelatedDevices | ClockDomain | DeviceIsAlive | DeviceIsRunning | ControlList
      | NominalSampleRate | AvailableNominalSampleRates | IsHidden | ZeroTimeStampPeriod | Icon
      | Streams => true
    case CanBeDefaultDevice | CanBeDefaultSystemDevice | Latency | SafetyOffset
      | PreferredChannelsForStereo | PreferredChannelLayout => Util.IsOneOf(a.scope, [Input, Output])
    case _ => false
  }

  /** Only the nominal sample rate is settable; the scope is not consulted. */
  function IsSettable(a: Address): (r: SettableReply)
    ensures a.selector in Selectors ==> r == Settable(a.selector == NominalSampleRate)
    ensures a.selector !in Selectors ==> r == SettableFailed(UnknownProperty)
  {
    match a.selector
    case NominalSampleRate => Settable(true)
    case BaseClass | Class | Owner | Name | Manufacturer | OwnedObjects | DeviceUid | ModelUid
      | TransportType | RelatedDevices | ClockDomain | DeviceIsAlive | DeviceIsRunning
      | CanBeDefaultDevice | CanBeDefaultSystemDevice | Latency | Streams | ControlList
      | SafetyOffset | AvailableNominalSampleRates | IsHidden | PreferredChannelsForStereo
      | PreferredChannelLayout | ZeroTimeStampPeriod | Icon => Settable(false)
    case _ => SettableFailed(UnknownProperty)
  }

  /** The size of the preferred channel layout: a 12-byte header and one 20-byte description per channel. */
  const LayoutSize: nat := LayoutHeaderSize + Config.ChannelCount * ChannelDescriptionSize

  /** The scoped lists' sizes; another scope leaves the size unwritten. */
  function ListSizeFor(scope: Scope, objects: bool): (r: SizeReply)
    ensures r == SizeUnwritten <==> scope.OtherScope?
    ensures ScopeFilter(scope, objects).Some?
      ==> r == Sized(ObjectIdSize * |Matching(ObjectsDescription, ScopeFilter(scope, objects).value)|)
  {
    match ScopeFilter(scope, objects)
    case Some(f) => Sized(ObjectIdSize * |Matching(ObjectsDescription, f)|)
    case None => SizeUnwritten
  }

  function Size(a: Address): (r: SizeReply)
    ensures r.SizeFailed? <==> a.selector !in Selectors
    ensures r.SizeFailed? ==> r.status == UnknownProperty
    ensures r == SizeUnwritten <==> a.selector in {OwnedObjects, Streams} && a.scope.OtherScope?
    ensures a.selector == OwnedObjects ==> r == ListSizeFor(a.scope, true)
    ensures a.selector == Streams ==> r == ListSizeFor(a.scope, false)
    ensures a.selector == AvailableNominalSampleRates
      ==> r == Sized(|Config.SupportedSampleRates| * ValueRangeSize)
    ensures a.selector == PreferredChannelLayout ==> r == Sized(12 + 20 * Config.ChannelCount)
  {
    match a.selector
    case BaseClass => Sized(ClassIdSize)
    case Class => Sized(ClassIdSize)
    case Owner => Sized(ObjectIdSize)
    case Name => Sized(StringRefSize)
    case Manufacturer => Sized(StringRefSize)
    case OwnedObjects => ListSizeFor(a.scope, true)
    case DeviceUid => Sized(StringRefSize)
    case ModelUid => Sized(StringRefSize)
    case TransportType => Sized(UInt32Size)
    case RelatedDevices => Sized(ObjectIdSize)
    case ClockDomain => Sized(UInt32Size)
    case DeviceIsAlive => Sized(ClassIdSize)
    case DeviceIsRunning => Sized(UInt32Size)
    case CanBeDefaultDevice => Sized(UInt32Size)
    case CanBeDefaultSystemDevice => Sized(UInt32Size)
    case Latency => Sized(UInt32Size)
    case Streams => ListSizeFor(a.scope, false)
    case ControlList => Sized(ObjectIdSize * |Matching(ObjectsDescription, Controls)|)
    case SafetyOffset => Sized(UInt32Size)
    case NominalSampleRate => Sized(Float64Size)
    case AvailableNominalSampleRates => Sized(|Config.SupportedSampleRates| * ValueRangeSize)
    case IsHidden => Sized(UInt32Size)
    case PreferredChannelsForStereo => Sized(2 * UInt32Size)
    case PreferredChannelLayout => Sized(LayoutSize)
    case ZeroTimeStampPeriod => Sized(UInt32Size)
    case Icon => Sized(UrlRefSize)
    case _ => SizeFailed(UnknownProperty)
  }

  /** One discrete range per supported rate: minimum and maximum are that rate. */
  function SampleRateRanges(): (rs: seq<ValueRange>)
    ensures |rs| == |Config.SupportedSampleRates|
    ensures forall i :: 0 <= i < |rs| ==> rs[i] == ValueRange(Config.SupportedSampleRates[i], Config.SupportedSampleRates[i])
  {
    seq(|Config.SupportedSampleRates|, i requires 0 <= i < |Config.SupportedSampleRates| =>
      ValueRange(Config.SupportedSampleRates[i], Config.SupportedSampleRates[i]))
  }

  /** As many rate ranges as fit, k = min(capacity / 16, rate count). */
  function RateList(capacity: nat): (r: GetReply)
    ensures r.Got? && r.value.Ranges?
    ensures r.value.ranges <= SampleRateRanges()
    ensures |r.value.ranges| == if capacity / ValueRangeSize < |Config.SupportedSampleRates|
      then capacity / ValueRangeSize else |Config.SupportedSampleRates|
    ensures r.bytes == |r.value.ranges| * ValueRangeSize <= capacity
  {
    var k := Util.Min([capacity / ValueRangeSize, |Config.SupportedSampleRates|]);
    Got(k * ValueRangeSize, Ranges(SampleRateRanges()[..k]))
  }

  /** The channel labels of the preferred layout: left, then the following labels, one per channel. */
  function LayoutLabels(): (ls: seq<nat>)
    ensures |ls| == Config.ChannelCount
    ensures forall i :: 0 <= i < |ls| ==> ls[i] == ChannelLabelLeft + i
  {
    seq(Config.ChannelCount, i => ChannelLabelLeft + i)
  }

  /**
   * A scoped list read. In a scope the device does not know, nothing is written
   * and the byte count reported is the caller's capacity rounded down to whole ids.
   */
  function ScopedList(scope: Scope, objects: bool, capacity: nat): (r: GetReply)
    ensures r.Got? && r.bytes <= capacity
    ensures scope.OtherScope? ==> r == Got((capacity / ObjectIdSize) * ObjectIdSize, Untouched)
    ensures !scope.OtherScope?
      ==> r == IdPrefix(capacity, Matching(ObjectsDescription, ScopeFilter(scope, objects).value))
  {
    match ScopeFilter(scope, objects)
    case Some(f) => IdPrefix(capacity, Matching(ObjectsDescription, f))
    case None => Got((capacity / ObjectIdSize) * ObjectIdSize, Untouched)
  }

  /** A buffer that holds the whole scoped list receives all of it. */
  lemma ScopedListFits(scope: Scope, objects: bool, capacity: nat)
    ensures ListSizeFor(scope, objects).Sized? && ListSizeFor(scope, objects).bytes <= capacity
      ==> ScopedList(scope, objects, capacity).bytes == ListSizeFor(scope, objects).bytes
  {
    match ScopeFilter(scope, objects)
    case Some(f) =>
      var ids := Matching(ObjectsDescription, f);
      assert ScopedList(scope, objects, capacity) == IdPrefix(capacity, ids);
      assert ListSizeFor(scope, objects) == Sized(ObjectIdSize * |ids|);
    case None =>
  }

  /** The selectors whose reads return as many items as fit instead of refusing a short buffer. */
  predicate IsList(s: Selector) {
    s == OwnedObjects || s == Streams || s == ControlList || s == RelatedDevices || s == AvailableNominalSampleRates
  }

  /**
   * `rate` is the nominal sample rate, `ioRunning` whether any client runs IO and
   * `iconFound` whether the plug-in bundle and its icon resource could be found.
   */
  function Get(a: Address, capacity: nat, rate: real, ioRunning: bool, iconFound: bool): (r: GetReply)
    ensures a.selector !in Selectors ==> r == GetFailed(UnknownProperty)
    ensures r.Got? ==> r.bytes <= capacity
    ensures a.selector == OwnedObjects ==> r == ScopedList(a.scope, true, capacity)
    ensures a.selector == Streams ==> r == ScopedList(a.scope, false, capacity)
    ensures a.selector == ControlList ==> r == IdPrefix(capacity, Matching(ObjectsDescription, Controls))
    ensures a.selector == RelatedDevices ==> r == IdPrefix(capacity, [DeviceId])
    ensures a.selector == AvailableNominalSampleRates ==> r == RateList(capacity)
    ensures a.selector == NominalSampleRate && capacity >= Float64Size ==> r == Got(8, Rate(rate))
    ensures a.selector == DeviceIsRunning && capacity >= UInt32Size ==> r == Got(4, Word(if ioRunning then 1 else 0))
    ensures a.selector == Icon && capacity >= UrlRefSize && !iconFound ==> r == GetFailed(UnspecifiedError)
  {
    match a.selector
    case BaseClass => Fixed(capacity, ClassIdSize, ClassValue(ObjectClass))
    case Class => Fixed(capacity, ClassIdSize, ClassValue(DeviceClass))
    case Owner => Fixed(capacity, ObjectIdSize, ObjectValue(PluginId))
    case Name => Fixed(capacity, StringRefSize, Text(Some(Config.DeviceName)))
    case Manufacturer => Fixed(capacity, StringRefSize, Text(Some(Config.ManufacturerName)))
    case OwnedObjects => ScopedList(a.scope, true, capacity)
    case DeviceUid => Fixed(capacity, StringRefSize, Text(Some(Config.DeviceUid)))
    case ModelUid => Fixed(capacity, StringRefSize, Text(Some(Config.DeviceModelUid)))
    case TransportType => Fixed(capacity, UInt32Size, Word(TransportVirtual))
    case RelatedDevices => IdPrefix(capacity, [DeviceId])
    case ClockDomain => Fixed(capacity, UInt32Size, Word(0))
    case DeviceIsAlive => Fixed(capacity, UInt32Size, Word(1))
    case DeviceIsRunning => Fixed(capacity, UInt32Size, Word(BoolWord(ioRunning)))
    case CanBeDefaultDevice => Fixed(capacity, UInt32Size, Word(BoolWord(Config.AllowsDefaultDevice)))
    case CanBeDefaultSystemDevice => Fixed(capacity, UInt32Size, Word(BoolWord(Config.AllowsDefaultDevice)))
    case Latency => Fixed(capacity, UInt32Size, Word(0))
    case Streams => ScopedList(a.scope, false, capacity)
    case ControlList => IdPrefix(capacity, Matching(ObjectsDescription, Controls))
    case SafetyOffset => Fixed(capacity, UInt32Size, Word(0))
    case NominalSampleRate => Fixed(capacity, Float64Size, Rate(rate))
    case AvailableNominalSampleRates => RateList(capacity)
    case IsHidden => Fixed(capacity, UInt32Size, Word(BoolWord(Config.Hidden)))
    case PreferredChannelsForStereo => Fixed(capacity, 2 * UInt32Size, Words([1, 2]))
    case PreferredChannelLayout => Fixed(capacity, LayoutSize, Layout(LayoutLabels()))
    case ZeroTimeStampPeriod => Fixed(capacity, UInt32Size, Word(Config.RingBufferSize))
    case Icon =>
      if capacity < UrlRefSize then GetFailed(BadPropertySize)
      else if !iconFound then GetFailed(UnspecifiedError)
      else Got(UrlRefSize, IconUrl)
    case _ => GetFailed(UnknownProperty)
  }

  /**
   * A read succeeds with the size that size reports whenever the buffer holds it
   * (the icon only when it is found); a buffer too small for a value that is not
   * a list is refused.
   */
  predicate AgreesWithSize(a: Address, capacity: nat, r: GetReply) {
    && (Size(a).Sized? && Size(a).bytes <= capacity && (a.selector == Icon ==> r != GetFailed(UnspecifiedError))
      ==> r.Got? && r.bytes == Size(a).bytes)
    && (!IsList(a.selector) && Size(a).Sized? && capacity < Size(a).bytes ==> r == GetFailed(BadPropertySize))
  }

  /** Class, owner, strings, transport and clock domain: fixed-size values. */
  predicate IdentityValue(s: Selector) {
    match s
    case BaseClass | Class | Owner | Name | Manufacturer | DeviceUid | ModelUid | TransportType | ClockDomain => true
    case _ => false
  }

  /** Flags, latencies, the sample rate and the stereo pair: fixed-size values. */
  predicate StateValue(s: Selector) {
    match s
    case DeviceIsAlive | DeviceIsRunning | CanBeDefaultDevice | CanBeDefaultSystemDevice | Latency | SafetyOffset | NominalSampleRate | IsHidden | PreferredChannelsForStereo => true
    case _ => false
  }

  lemma IdentityReadsAgree(a: Address, capacity: nat, rate: real, ioRunning: bool, iconFound: bool)
    requires IdentityValue(a.selector)
    ensures AgreesWithSize(a, capacity, Get(a, capacity, rate, ioRunning, iconFound))
  {
  }

  lemma StateReadsAgree(a: Address, capacity: nat, rate: real, ioRunning: bool, iconFound: bool)
    requires StateValue(a.selector)
    ensures AgreesWithSize(a, capacity, Get(a, capacity, rate, ioRunning, iconFound))
  {
  }

  lemma ScopedReadsAgree(a: Address, capacity: nat, rate: real, ioRunning: bool, iconFound: bool)
    requires a.selector == OwnedObjects || a.selector == Streams
    ensures AgreesWithSize(a, capacity, Get(a, capacity, rate, ioRunning, iconFound))
  {
    ScopedListFits(a.scope, a.selector == OwnedObjects, capacity);
  }

  lemma FixedListReadsAgree(a: Address, capacity: nat, rate: real, ioRunning: bool, iconFound: bool)
    requires a.selector == ControlList || a.selector == RelatedDevices || a.selector == AvailableNominalSampleRates
    ensures AgreesWithSize(a, capacity, Get(a, capacity, rate, ioRunning, iconFound))
  {
  }

  lemma OtherReadsAgree(a: Address, capacity: nat, rate: real, ioRunning: bool, iconFound: bool)
    requires !IdentityValue(a.selector) && !StateValue(a.selector) && !IsList(a.selector)
    ensures AgreesWithSize(a, capacity, Get(a, capacity, rate, ioRunning, iconFound))
  {
  }

  lemma GetAgreesWithSize(a: Address, capacity: nat, rate: real, ioRunning: bool, iconFound: bool)
    ensures AgreesWithSize(a, capacity, Get(a, capacity, rate, ioRunning, iconFound))
  {
    if IdentityValue(a.selector) {
      IdentityReadsAgree(a, capacity, rate, ioRunning, iconFound);
    } else if StateValue(a.selector) {
      StateReadsAgree(a, capacity, rate, ioRunning, iconFound);
    } else if IsList(a.selector) {
      if a.selector == OwnedObjects || a.selector == Streams {
        ScopedReadsAgree(a, capacity, rate, ioRunning, iconFound);
      } else {
        FixedListReadsAgree(a, capacity, rate, ioRunning, iconFound);
      }
    } else {
      OtherReadsAgree(a, capacity, rate, ioRunning, iconFound);
    }
  }

  /** A sample-rate write needs exactly one Float64 and becomes a configuration-change request. */
  function Set(a: Address, d: SetData): (r: SetAction)
    ensures r != Reject(UnknownProperty) <==> IsSettable(a) == Settable(true)
    ensures r.Delegate? <==> a.selector == NominalSampleRate && d.size == Float64Size
    ensures IsSettable(a) == Settable(true) && !r.Delegate? ==> r == Reject(BadPropertySize)
    ensures r.Delegate? ==> r.request == RequestRate(d.float64)
    ensures !r.Apply? && !r.Unchanged?
  {
    match a.selector
    case NominalSampleRate =>
      if d.size != Float64Size then Reject(BadPropertySize) else Delegate(RequestRate(d.float64))
    case _ => Reject(UnknownProperty)
  }
}
