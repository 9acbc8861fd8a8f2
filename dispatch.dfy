// The driver's property entry points. Each checks the caller's pointers, routes
// the object id to its object (callObject), and asks that object. An accepted
// write is carried out on the driver state; it may report changed properties to
// the host, defer host calls (a notification for another object or a
// configuration-change request) and write settings to the host's storage.
module Dispatch {
  import opened Properties
  import Config
  import RateChange
  import Settings
  import PluginObject
  import BoxObject
  import DeviceObject
  import StreamObject
  import VolumeControl
  import MuteControl

  // Routing object ids (callObject).

  /** The objects the driver publishes. */
  datatype ObjectKind =
    | PluginKind
    | BoxKind
    | DeviceKind
    | StreamKind(dir: Direction)
    | VolumeKind(dir: Direction)
    | MuteKind(dir: Direction)

  /** The id an object is published under. */
  function IdOf(k: ObjectKind): nat {
    match k
    case PluginKind => PluginId
    case BoxKind => BoxId
    case DeviceKind => DeviceId
    case StreamKind(dir) => if dir == In then StreamInputId else StreamOutputId
    case VolumeKind(dir) => if dir == In then VolumeInputId else VolumeOutputId
    case MuteKind(dir) => if dir == In then MuteInputId else MuteOutputId
  }

  /** callObject: the object an id names; no object for any other id. */
  function ObjectOf(id: nat): (k: Option<ObjectKind>)
    ensures k.Some? <==> PluginId <= id <= MuteOutputId
    ensures k.Some? ==> IdOf(k.value) == id
  {
    if id == PluginId then Some(PluginKind)
    else if id == BoxId then Some(BoxKind)
    else if id == DeviceId then Some(DeviceKind)
    else if id == StreamInputId then Some(StreamKind(In))
    else if id == VolumeInputId then Some(VolumeKind(In))
    else if id == MuteInputId then Some(MuteKind(In))
    else if id == StreamOutputId then Some(StreamKind(Out))
    else if id == VolumeOutputId then Some(VolumeKind(Out))
    else if id == MuteOutputId then Some(MuteKind(Out))
    else None
  }

  /** Every object is reached through its own id, so no two objects share an id. */
  lemma IdsNameTheirObjects(k: ObjectKind)
    ensures ObjectOf(IdOf(k)) == Some(k)
  {
    match k
    case PluginKind =>
    case BoxKind =>
    case DeviceKind =>
    case StreamKind(dir) =>
    case VolumeKind(dir) =>
    case MuteKind(dir) =>
  }

  /** The device's object table names streams and controls of the direction it gives them. */
  lemma DeviceTableMatchesRouting(i: nat)
    requires i < |DeviceObject.ObjectsDescription|
    ensures var e := DeviceObject.ObjectsDescription[i];
      && ObjectOf(e.id) in {Some(StreamKind(e.dir)), Some(VolumeKind(e.dir)), Some(MuteKind(e.dir))}
      && (ObjectOf(e.id) == Some(StreamKind(e.dir)) <==> e.kind == DeviceObject.StreamKind)
  {
  }

  // The driver state the property operations read and write.

  datatype PropertyState = PropertyState(
    boxName: Option<string>,
    boxAcquired: bool,
    sampleRate: real,
    ioRunning: bool,
    inputActive: bool,
    outputActive: bool,
    volume: real,
    muted: bool)

  function StreamActive(st: PropertyState, dir: Direction): bool {
    if dir == In then st.inputActive else st.outputActive
  }

  // Per-object dispatch.

  /** Whether the object of kind `k` has the property; every object has the base properties of an audio object. */
  predicate KindExists(k: ObjectKind, a: Address): (b: bool)
    ensures a.selector in {BaseClass, Class, Owner, OwnedObjects} ==> b
  {
    match k
    case PluginKind => PluginObject.Exists(a)
    case BoxKind => BoxObject.Exists(a)
    case DeviceKind => DeviceObject.Exists(a)
    case StreamKind(_) => StreamObject.Exists(a)
    case VolumeKind(_) => VolumeControl.Exists(a)
    case MuteKind(_) => MuteControl.Exists(a)
  }

  /** Whether the property can be written: only an existing one, and an object's only refusal is an unknown property. */
  function KindSettable(k: ObjectKind, a: Address): (r: SettableReply)
    ensures r == Settable(true) ==> KindExists(k, a)
    ensures r.SettableFailed? ==> r.status == UnknownProperty
  {
    match k
    case PluginKind => PluginObject.IsSettable(a)
    case BoxKind => BoxObject.IsSettable(a)
    case DeviceKind => DeviceObject.IsSettable(a)
    case StreamKind(_) => StreamObject.IsSettable(a)
    case VolumeKind(_) => VolumeControl.IsSettable(a)
    case MuteKind(_) => MuteControl.IsSettable(a)
  }

  /** The size of the property's value: every existing property has one; the only failure is an unknown property. */
  function KindSize(k: ObjectKind, a: Address, st: PropertyState): (r: SizeReply)
    ensures KindExists(k, a) ==> !r.SizeFailed?
    ensures r.SizeFailed? ==> r.status == UnknownProperty
  {
    match k
    case PluginKind => PluginObject.Size(a, st.boxAcquired)
    case BoxKind => BoxObject.Size(a)
    case DeviceKind => DeviceObject.Size(a)
    case StreamKind(_) => StreamObject.Size(a)
    case VolumeKind(_) => VolumeControl.Size(a)
    case MuteKind(_) => MuteControl.Size(a)
  }

  /** The property's value, read from the driver state; no object reports more bytes than the buffer holds. */
  function KindGet(k: ObjectKind, a: Address, q: Qualifier, capacity: nat, st: PropertyState, iconFound: bool): (r: GetReply)
    ensures r.Got? ==> r.bytes <= capacity
  {
    match k
    case PluginKind => PluginObject.Get(a, q, capacity, st.boxAcquired)
    case BoxKind => BoxObject.Get(a, capacity, st.boxAcquired, st.boxName)
    case DeviceKind => DeviceObject.Get(a, capacity, st.sampleRate, st.ioRunning, iconFound)
    case StreamKind(dir) => StreamObject.Get(dir, a, capacity, StreamActive(st, dir), st.sampleRate)
    case VolumeKind(dir) => VolumeControl.Get(dir, a, capacity)
    case MuteKind(dir) => MuteControl.Get(dir, a, capacity, st.muted)
  }

  /** What a write asks for: anything but a refusal only for a property the object calls settable. */
  function KindSet(k: ObjectKind, a: Address, d: SetData, st: PropertyState): (r: SetAction)
    ensures !r.Reject? ==> KindSettable(k, a) == Settable(true)
  {
    match k
    case PluginKind => PluginObject.Set(a)
    case BoxKind => BoxObject.Set(a, d)
    case DeviceKind => DeviceObject.Set(a, d)
    case StreamKind(dir) => StreamObject.Set(dir, a, d)
    case VolumeKind(_) => VolumeControl.Set(a, d)
    case MuteKind(_) => MuteControl.Set(a, d, st.muted)
  }

  /** A property can be written only if it exists on its object. */
  lemma SettableExists(k: ObjectKind, a: Address)
    ensures KindSettable(k, a) == Settable(true) ==> KindExists(k, a)
  {
  }

  /** An object refuses a write as unknown exactly when it does not call the property settable. */
  lemma {:induction false} SetRefusesUnsettable(k: ObjectKind, a: Address, d: SetData, st: PropertyState)
    ensures KindSet(k, a, d, st) == Reject(UnknownProperty) <==> KindSettable(k, a) != Settable(true)
  {
    match k
    case PluginKind =>
    case BoxKind =>
    case DeviceKind =>
    case StreamKind(dir) =>
    case VolumeKind(_) =>
    case MuteKind(_) =>
  }

  // The entry points.

  /** HasProperty: no address or no such object means the property is not there. */
  predicate HasProperty(id: nat, address: Option<Address>): (b: bool)
    ensures b ==> address.Some? && ObjectOf(id).Some?
    ensures address.Some? && address.value.selector in {BaseClass, Class, Owner, OwnedObjects} ==> (b <==> ObjectOf(id).Some?)
  {
    match address
    case None => false
    case Some(a) =>
      match ObjectOf(id)
      case None => false
      case Some(k) => KindExists(k, a)
  }

  /** IsPropertySettable: `outPresent` is whether the caller passed somewhere to put the answer. */
  function PropertySettable(id: nat, address: Option<Address>, outPresent: bool): (r: SettableReply)
    ensures r == SettableFailed(IllegalOperation) <==> address.None? || !outPresent
    ensures r == SettableFailed(BadObject) <==> address.Some? && outPresent && ObjectOf(id).None?
    ensures HasProperty(id, address) && outPresent ==> r.Settable?
    ensures r == Settable(true) ==> HasProperty(id, address)
  {
    match address
    case None => SettableFailed(IllegalOperation)
    case Some(a) =>
      if !outPresent then SettableFailed(IllegalOperation)
      else match ObjectOf(id)
        case None => SettableFailed(BadObject)
        case Some(k) => SettableExists(k, a); KindSettable(k, a)
  }

  /** GetPropertyDataSize: an existing property always has a size. */
  function PropertyDataSize(st: PropertyState, id: nat, address: Option<Address>, outPresent: bool): (r: SizeReply)
    ensures r == SizeFailed(IllegalOperation) <==> address.None? || !outPresent
    ensures r == SizeFailed(BadObject) <==> address.Some? && outPresent && ObjectOf(id).None?
    ensures HasProperty(id, address) && outPresent ==> !r.SizeFailed?
    ensures r == SizeFailed(UnknownProperty) ==> !HasProperty(id, address)
  {
    match address
    case None => SizeFailed(IllegalOperation)
    case Some(a) =>
      if !outPresent then SizeFailed(IllegalOperation)
      else match ObjectOf(id)
        case None => SizeFailed(BadObject)
        case Some(k) => KindSize(k, a, st)
  }

  /**
   * GetPropertyData: `outSizePresent` and `outDataPresent` are whether the caller
   * passed somewhere for the byte count and the value; `iconFound` whether the
   * icon resource can be found.
   */
  function PropertyData(st: PropertyState, id: nat, address: Option<Address>, q: Qualifier, capacity: nat,
                        outSizePresent: bool, outDataPresent: bool, iconFound: bool): (r: GetReply)
    ensures address.None? || !outSizePresent || !outDataPresent ==> r == GetFailed(IllegalOperation)
    ensures address.Some? && outSizePresent && outDataPresent && ObjectOf(id).None? ==> r == GetFailed(BadObject)
    ensures r.Got? ==> r.bytes <= capacity
  {
    match address
    case None => GetFailed(IllegalOperation)
    case Some(a) =>
      if !outSizePresent || !outDataPresent then GetFailed(IllegalOperation)
      else match ObjectOf(id)
        case None => GetFailed(BadObject)
        case Some(k) => KindGet(k, a, q, capacity, st, iconFound)
  }

  /** The UID translations, which read their answer's size from the qualifier rather than from size. */
  predicate IsTranslation(s: Selector) {
    s == TranslateUidToBox || s == TranslateUidToDevice
  }

  /**
   * A read into a buffer that holds the size reported for the property returns
   * exactly that many bytes (except a UID translation with a bad qualifier, and
   * the icon when it cannot be found).
   */
  lemma {:induction false} ReadsMatchSizes(st: PropertyState, id: nat, a: Address, q: Qualifier, capacity: nat, iconFound: bool)
    ensures var s := PropertyDataSize(st, id, Some(a), true);
      var g := PropertyData(st, id, Some(a), q, capacity, true, true, iconFound);
      s.Sized? && s.bytes <= capacity && !IsTranslation(a.selector) && g != GetFailed(UnspecifiedError)
      ==> g.Got? && g.bytes == s.bytes
  {
    match ObjectOf(id)
    case None =>
    case Some(k) =>
      match k
      case PluginKind =>
      case BoxKind =>
      case DeviceKind => DeviceObject.GetAgreesWithSize(a, capacity, st.sampleRate, st.ioRunning, iconFound);
      case StreamKind(_) =>
      case VolumeKind(_) =>
      case MuteKind(_) =>
  }

  // Carrying out a write.

  /** A deferred host call: a notification for another object, or a configuration-change request for the device. */
  datatype Deferred = NotifyLater(object: nat, addresses: seq<Address>) | RequestChange(action: nat)

  /**
   * The floating-point volume curve, kept abstract: the amplitude for a slider
   * position, the amplitude for a decibel level, and the smallest amplitude a
   * decibel write may set.
   */
  datatype LevelCurve = LevelCurve(fromNormalized: real -> real, fromDecibels: real -> real, minAmplitude: real)

  /** The amplitude a volume write asks for; a decibel level is raised to the smallest amplitude. */
  function Amplitude(curve: LevelCurve, input: VolumeInput): (amp: real)
    ensures input.Decibels? ==> amp >= curve.minAmplitude
    ensures input.Decibels? && curve.fromDecibels(input.db) >= curve.minAmplitude ==> amp == curve.fromDecibels(input.db)
    ensures input.Normalized? ==> amp == curve.fromNormalized(input.value)
  {
    match input
    case Normalized(v) => curve.fromNormalized(v)
    case Decibels(db) =>
      var amp := curve.fromDecibels(db);
      if curve.minAmplitude > amp then curve.minAmplitude else amp
  }

  // Box names compare without regard to case (ASCII letters only in this model).

  function Lower(c: char): char {
    if 'A' <= c <= 'Z' then (c as int + 32) as char else c
  }

  /** Case-insensitive comparison, character by character. */
  predicate SameNameIgnoringCase(a: string, b: string): (same: bool)
    ensures same ==> |a| == |b|
  {
    |a| == |b| && (|a| == 0 || (Lower(a[0]) == Lower(b[0]) && SameNameIgnoringCase(a[1..], b[1..])))
  }

  /** A name with every letter in lower case: the reference the comparison is checked against. */
  function Folded(s: string): (t: string)
    ensures |t| == |s|
    ensures forall i :: 0 <= i < |s| ==> t[i] == Lower(s[i])
  {
    seq(|s|, i requires 0 <= i < |s| => Lower(s[i]))
  }

  lemma FoldedTail(s: string)
    requires |s| > 0
    ensures Folded(s) == [Lower(s[0])] + Folded(s[1..])
  {
  }

  /** Two names are the same ignoring case exactly when their lower-case forms are equal. */
  lemma {:induction false} SameNameIsFoldedEquality(a: string, b: string)
    ensures SameNameIgnoringCase(a, b) <==> Folded(a) == Folded(b)
    decreases |a|
  {
    if |a| == |b| && |a| > 0 {
      SameNameIsFoldedEquality(a[1..], b[1..]);
      FoldedTail(a);
      FoldedTail(b);
      if Folded(a) == Folded(b) {
        assert Folded(a)[0] == Folded(b)[0];
        assert Folded(a)[1..] == Folded(a[1..]);
        assert Folded(b)[1..] == Folded(b[1..]);
      }
    }
  }

  /** The comparison is an equivalence: every name matches itself, and matching is symmetric and transitive. */
  lemma NameMatchIsEquivalence(a: string, b: string, c: string)
    ensures SameNameIgnoringCase(a, a)
    ensures SameNameIgnoringCase(a, b) ==> SameNameIgnoringCase(b, a)
    ensures SameNameIgnoringCase(a, b) && SameNameIgnoringCase(b, c) ==> SameNameIgnoringCase(a, c)
  {
    SameNameIsFoldedEquality(a, a);
    SameNameIsFoldedEquality(a, b);
    SameNameIsFoldedEquality(b, a);
    SameNameIsFoldedEquality(b, c);
    SameNameIsFoldedEquality(a, c);
  }

  /**
   * Whether renaming the box from `current` to `name` changes it: a missing name
   * replaces a present one and the reverse, and two present names differ only if
   * they differ ignoring case.
   */
  predicate Renames(current: Option<string>, name: Option<string>): (r: bool)
    ensures r ==> current != name
    ensures current.Some? && name.Some? ==> (r <==> Folded(name.value) != Folded(current.value))
    ensures current.None? != name.None? ==> r
  {
    if name.None? && current.None? then false
    else if current.None? then true
    else if name.None? then true
    else
      SameNameIsFoldedEquality(name.value, current.value);
      !SameNameIgnoringCase(name.value, current.value)
  }

  /** The state change of an effect: whether it changed anything, the new state, deferred calls and storage writes. */
  datatype Effected = Effected(changed: bool, state: PropertyState, deferred: seq<Deferred>, stored: seq<Settings.Stored>)

  function NoChange(st: PropertyState): Effected {
    Effected(false, st, [], [])
  }

  /** The driver's setters: each compares with the current value and changes and reports only a difference. */
  function ApplyEffect(st: PropertyState, e: Effect, curve: LevelCurve): (o: Effected)
    ensures o.changed <==> o.state != st
    ensures !o.changed ==> o == NoChange(st)
    ensures o.state.sampleRate == st.sampleRate && o.state.ioRunning == st.ioRunning
    ensures e.AcquireBox? ==> o.state == st.(boxAcquired := e.acquired)
    ensures e.ActivateStream? ==>
      o.state == if e.dir == In then st.(inputActive := e.active) else st.(outputActive := e.active)
    ensures e.MuteMaster? ==> o.state == st.(muted := e.muted)
    ensures e.AdjustVolume? ==> o.state == st.(volume := Amplitude(curve, e.input))
    ensures e.ActivateStream? || e.MuteMaster? || e.AdjustVolume? ==> o.deferred == [] && o.stored == []
  {
    match e
    case RenameBox(name) =>
      if !Renames(st.boxName, name) then NoChange(st)
      else
        assert name != st.boxName by {
          if name.Some? && st.boxName.Some? {
            NameMatchIsEquivalence(name.value, name.value, name.value);
          }
        }
        Effected(true, st.(boxName := name), [],
          [if name.Some? then Settings.SaveName(name.value) else Settings.ForgetName])
    case AcquireBox(acquired) =>
      if st.boxAcquired == acquired then NoChange(st)
      else Effected(true, st.(boxAcquired := acquired), [NotifyLater(PluginId, [GlobalMain(DeviceList)])],
        [Settings.SaveAcquired(acquired)])
    case ActivateStream(dir, active) =>
      if StreamActive(st, dir) == active then NoChange(st)
      else if dir == In then Effected(true, st.(inputActive := active), [], [])
      else Effected(true, st.(outputActive := active), [], [])
    case MuteMaster(muted) =>
      if st.muted == muted then NoChange(st)
      else Effected(true, st.(muted := muted), [], [])
    case AdjustVolume(input) =>
      var amp := Amplitude(curve, input);
      if st.volume == amp then NoChange(st)
      else Effected(true, st.(volume := amp), [], [])
  }

  /** What a write answers and leaves behind. `changed` are the properties reported changed on the written object. */
  datatype WriteOutcome = WriteOutcome(
    status: Status, state: PropertyState, changed: seq<Address>, deferred: seq<Deferred>, stored: seq<Settings.Stored>)

  function Refused(st: PropertyState, s: Status): WriteOutcome {
    WriteOutcome(s, st, [], [], [])
  }

  /** A configuration-change request checked against the current rate. */
  function RequestOutcome(st: PropertyState, request: Request): (o: WriteOutcome)
    ensures o.state == st && o.changed == [] && o.stored == []
    ensures o.status != NoError ==> o.deferred == []
  {
    var reply := match request
      case RequestRate(sr) => RateChange.RateRequest(sr, st.sampleRate)
      case RequestFormat(f) => RateChange.FormatRequest(f, st.sampleRate);
    WriteOutcome(reply.status, st, [],
      if reply.request.Some? then [RequestChange(reply.request.value)] else [], [])
  }

  /**
   * SetPropertyData. No write changes the sample rate or the IO state; a write
   * reports changed properties exactly when it changed the state; a refused
   * write changes and defers nothing.
   */
  function Write(st: PropertyState, id: nat, address: Option<Address>, d: SetData, curve: LevelCurve): (o: WriteOutcome)
    ensures address.None? ==> o == Refused(st, IllegalOperation)
    ensures address.Some? && ObjectOf(id).None? ==> o == Refused(st, BadObject)
    ensures o.status == UnknownProperty <==>
      address.Some? && ObjectOf(id).Some? && KindSettable(ObjectOf(id).value, address.value) != Settable(true)
    ensures o.status != NoError ==> o.state == st && o.changed == [] && o.deferred == [] && o.stored == []
    ensures o.state.sampleRate == st.sampleRate && o.state.ioRunning == st.ioRunning
    ensures o.state != st <==> o.changed != []
  {
    match address
    case None => Refused(st, IllegalOperation)
    case Some(a) =>
      match ObjectOf(id)
      case None => Refused(st, BadObject)
      case Some(k) =>
        SetRefusesUnsettable(k, a, d, st);
        match KindSet(k, a, d, st)
        case Reject(s) => Refused(st, s)
        case Unchanged => WriteOutcome(NoError, st, [], [], [])
        case Apply(e, onChange) =>
          var eff := ApplyEffect(st, e, curve);
          assert onChange != [];
          WriteOutcome(NoError, eff.state, if eff.changed then onChange else [], eff.deferred, eff.stored)
        case Delegate(request) => RequestOutcome(st, request)
  }

  // What the writes mean for the rest of the driver.

  /** Both volume controls drive the one master volume, and both mute controls the one master mute. */
  lemma ControlsShareMasterValues(st: PropertyState, a: Address, d: SetData, curve: LevelCurve)
    ensures Write(st, VolumeInputId, Some(a), d, curve) == Write(st, VolumeOutputId, Some(a), d, curve)
    ensures Write(st, MuteInputId, Some(a), d, curve) == Write(st, MuteOutputId, Some(a), d, curve)
  {
  }

  /** A mute written through either mute control is what both mute controls then read. */
  lemma MuteWriteReadsBack(st: PropertyState, dir: Direction, other: Direction, d: SetData, curve: LevelCurve,
                           q: Qualifier, capacity: nat, iconFound: bool)
    requires d.size == UInt32Size && capacity >= UInt32Size
    ensures var o := Write(st, IdOf(MuteKind(dir)), Some(GlobalMain(BooleanValue)), d, curve);
      && o.status == NoError
      && o.state == st.(muted := d.word != 0)
      && (o.changed != [] <==> (d.word != 0) != st.muted)
      && PropertyData(o.state, IdOf(MuteKind(other)), Some(GlobalMain(BooleanValue)), q, capacity, true, true, iconFound)
         == Got(UInt32Size, Word(BoolWord(d.word != 0)))
  {
    IdsNameTheirObjects(MuteKind(dir));
    MuteReadsState(st.(muted := d.word != 0), other, q, capacity, iconFound);
  }

  /**
   * Activating or deactivating a stream sets that direction's flag only, reports
   * the active flag exactly when it changes, defers and saves nothing, and the
   * stream then reads the written flag while the other stream reads as before.
   */
  lemma StreamActiveWriteReadsBack(st: PropertyState, dir: Direction, d: SetData, curve: LevelCurve,
                                   q: Qualifier, capacity: nat, iconFound: bool)
    requires d.size >= UInt32Size && capacity >= UInt32Size
    ensures var o := Write(st, IdOf(StreamKind(dir)), Some(GlobalMain(IsActive)), d, curve);
      && o.status == NoError
      && o.state == (if dir == In then st.(inputActive := d.word != 0) else st.(outputActive := d.word != 0))
      && o.changed == (if StreamActive(st, dir) == (d.word != 0) then [] else [GlobalMain(IsActive)])
      && o.deferred == [] && o.stored == []
      && StreamActive(o.state, if dir == In then Out else In) == StreamActive(st, if dir == In then Out else In)
      && PropertyData(o.state, IdOf(StreamKind(dir)), Some(GlobalMain(IsActive)), q, capacity, true, true, iconFound)
         == Got(UInt32Size, Word(BoolWord(d.word != 0)))
  {
    StreamActiveWrite(st, dir, d, curve);
    var st' := if dir == In then st.(inputActive := d.word != 0) else st.(outputActive := d.word != 0);
    StreamActiveReadsState(st', dir, q, capacity, iconFound);
  }

  /** The whole outcome of an IsActive write on a stream. */
  lemma StreamActiveWrite(st: PropertyState, dir: Direction, d: SetData, curve: LevelCurve)
    requires d.size >= UInt32Size
    ensures Write(st, IdOf(StreamKind(dir)), Some(GlobalMain(IsActive)), d, curve)
         == WriteOutcome(NoError,
              if dir == In then st.(inputActive := d.word != 0) else st.(outputActive := d.word != 0),
              if StreamActive(st, dir) == (d.word != 0) then [] else [GlobalMain(IsActive)], [], [])
  {
    IdsNameTheirObjects(StreamKind(dir));
  }

  /** A stream's IsActive read reports that stream's own flag. */
  lemma StreamActiveReadsState(st: PropertyState, dir: Direction, q: Qualifier, capacity: nat, iconFound: bool)
    requires capacity >= UInt32Size
    ensures PropertyData(st, IdOf(StreamKind(dir)), Some(GlobalMain(IsActive)), q, capacity, true, true, iconFound)
         == Got(UInt32Size, Word(BoolWord(StreamActive(st, dir))))
  {
    IdsNameTheirObjects(StreamKind(dir));
  }

  /** Either mute control reads the master mute. */
  lemma MuteReadsState(st: PropertyState, dir: Direction, q: Qualifier, capacity: nat, iconFound: bool)
    requires capacity >= UInt32Size
    ensures PropertyData(st, IdOf(MuteKind(dir)), Some(GlobalMain(BooleanValue)), q, capacity, true, true, iconFound)
         == Got(UInt32Size, Word(BoolWord(st.muted)))
  {
    IdsNameTheirObjects(MuteKind(dir));
  }

  /** A volume write through either control sets the master gain to the amplitude the curve gives. */
  lemma VolumeWriteSetsGain(st: PropertyState, dir: Direction, a: Address, d: SetData, curve: LevelCurve)
    requires a.selector in VolumeControl.SettableSelectors && d.size >= Float32Size
    ensures var input := if a.selector == ScalarValue then Normalized(d.float32) else Decibels(d.float32);
      var o := Write(st, IdOf(VolumeKind(dir)), Some(a), d, curve);
      && o.status == NoError
      && o.state == st.(volume := Amplitude(curve, input))
      && o.changed == (if st.volume == Amplitude(curve, input) then [] else VolumeControl.LevelAddresses)
  {
    IdsNameTheirObjects(VolumeKind(dir));
  }

  /** The state once the host has performed change action `action`: the new sample rate. */
  function Performed(st: PropertyState, action: nat): (st': PropertyState)
    ensures st'.sampleRate == action as real
    ensures st'.(sampleRate := st.sampleRate) == st
  {
    st.(sampleRate := action as real)
  }

  /**
   * A nominal-sample-rate write leaves the rate as it is and requests a change
   * exactly when the rate is supported and differs; once the host performs that
   * change, the device reports the rate and both streams report their format at it.
   */
  lemma RateWriteRoundTrip(st: PropertyState, d: SetData, curve: LevelCurve, dir: Direction,
                           q: Qualifier, capacity: nat, iconFound: bool)
    requires d.size == Float64Size && capacity >= BasicDescriptionSize
    ensures var sr := d.float64;
      var o := Write(st, DeviceId, Some(GlobalMain(NominalSampleRate)), d, curve);
      && o.state == st && o.changed == [] && o.stored == []
      && o.status == (if Config.IsSupportedRate(sr) then NoError else IllegalOperation)
      && (o.deferred != [] <==> Config.IsSupportedRate(sr) && sr != st.sampleRate)
      && (o.deferred != [] ==>
          && |o.deferred| == 1 && o.deferred[0].RequestChange?
          && RateChange.PerformStatus(DeviceId, o.deferred[0].action) == NoError
          && PropertyData(Performed(st, o.deferred[0].action), DeviceId, Some(GlobalMain(NominalSampleRate)),
               q, capacity, true, true, iconFound) == Got(Float64Size, Rate(sr))
          && PropertyData(Performed(st, o.deferred[0].action), IdOf(StreamKind(dir)), Some(GlobalMain(VirtualFormat)),
               q, capacity, true, true, iconFound) == Got(BasicDescriptionSize, Format(BasicDescription(sr))))
  {
    var o := Write(st, DeviceId, Some(GlobalMain(NominalSampleRate)), d, curve);
    assert o == RequestOutcome(st, RequestRate(d.float64));
    if o.deferred != [] {
      var action := o.deferred[0].action;
      assert action as real == d.float64;
      RateChange.RequestedChangesPerform(d.float64, st.sampleRate);
      PerformedRateReads(st, action, dir, q, capacity, iconFound);
    }
  }

  /** Once a change to a supported rate is performed, the device and both streams report that rate. */
  lemma PerformedRateReads(st: PropertyState, action: nat, dir: Direction, q: Qualifier, capacity: nat, iconFound: bool)
    requires Config.IsSupportedRate(action as real) && capacity >= BasicDescriptionSize
    ensures PropertyData(Performed(st, action), DeviceId, Some(GlobalMain(NominalSampleRate)),
              q, capacity, true, true, iconFound) == Got(Float64Size, Rate(action as real))
    ensures PropertyData(Performed(st, action), IdOf(StreamKind(dir)), Some(GlobalMain(VirtualFormat)),
              q, capacity, true, true, iconFound) == Got(BasicDescriptionSize, Format(BasicDescription(action as real)))
  {
    DeviceReportsRate(Performed(st, action), q, capacity, iconFound);
    StreamReportsRate(Performed(st, action), dir, q, capacity, iconFound);
  }

  /** The device's nominal sample rate reads the state's rate. */
  lemma DeviceReportsRate(st: PropertyState, q: Qualifier, capacity: nat, iconFound: bool)
    requires capacity >= Float64Size
    ensures PropertyData(st, DeviceId, Some(GlobalMain(NominalSampleRate)), q, capacity, true, true, iconFound)
         == Got(Float64Size, Rate(st.sampleRate))
  {
  }

  /** A stream's virtual format reads the device's format at the state's rate. */
  lemma StreamReportsRate(st: PropertyState, dir: Direction, q: Qualifier, capacity: nat, iconFound: bool)
    requires capacity >= BasicDescriptionSize
    ensures PropertyData(st, IdOf(StreamKind(dir)), Some(GlobalMain(VirtualFormat)), q, capacity, true, true, iconFound)
         == Got(BasicDescriptionSize, Format(BasicDescription(st.sampleRate)))
  {
    IdsNameTheirObjects(StreamKind(dir));
  }

  /** Writing a stream's format as the device's format at rate `sr` is the same as writing rate `sr` to the device. */
  lemma FormatWriteIsRateWrite(st: PropertyState, dir: Direction, a: Address, d: SetData, rateWrite: SetData, curve: LevelCurve)
    requires a.selector == VirtualFormat || a.selector == PhysicalFormat
    requires d.size == BasicDescriptionSize && rateWrite.size == Float64Size
    requires d.format == BasicDescription(rateWrite.float64)
    ensures Write(st, IdOf(StreamKind(dir)), Some(a), d, curve)
         == Write(st, DeviceId, Some(GlobalMain(NominalSampleRate)), rateWrite, curve)
  {
    IdsNameTheirObjects(StreamKind(dir));
    RateChange.FormatWriteIsRateWrite(rateWrite.float64, st.sampleRate);
  }

  /**
   * Acquiring or releasing the box publishes or withdraws the device: a change is
   * reported on the box, the plug-in's device list is announced later, the flag is
   * saved, and the plug-in's device list then holds the device exactly when acquired.
   */
  lemma AcquireRepublishesDevice(st: PropertyState, d: SetData, curve: LevelCurve, q: Qualifier, capacity: nat, iconFound: bool)
    requires d.size == UInt32Size && capacity >= ObjectIdSize
    ensures var b := d.word != 0;
      var o := Write(st, BoxId, Some(GlobalMain(Acquired)), d, curve);
      && o.status == NoError
      && o.state == st.(boxAcquired := b)
      && PropertyData(o.state, PluginId, Some(GlobalMain(DeviceList)), q, capacity, true, true, iconFound)
         == Got(if b then ObjectIdSize else 0, Ids(if b then [DeviceId] else []))
      && (b != st.boxAcquired ==>
          && o.changed == [GlobalMain(Acquired), GlobalMain(BoxDeviceList)]
          && o.deferred == [NotifyLater(PluginId, [GlobalMain(DeviceList)])]
          && o.stored == [Settings.SaveAcquired(b)]
          && Settings.InitialAcquired(Settings.Persisted(o.stored[0])) == b)
      && (b == st.boxAcquired ==> o.changed == [] && o.deferred == [] && o.stored == [])
  {
    AcquireWrite(st, d, curve);
    PublishedDevices(st.(boxAcquired := d.word != 0), q, capacity, iconFound);
  }

  /** The outcome of a write of the box's acquired flag. */
  lemma AcquireWrite(st: PropertyState, d: SetData, curve: LevelCurve)
    requires d.size == UInt32Size
    ensures var b := d.word != 0;
      Write(st, BoxId, Some(GlobalMain(Acquired)), d, curve)
      == if b == st.boxAcquired then WriteOutcome(NoError, st, [], [], [])
         else WriteOutcome(NoError, st.(boxAcquired := b), [GlobalMain(Acquired), GlobalMain(BoxDeviceList)],
           [NotifyLater(PluginId, [GlobalMain(DeviceList)])], [Settings.SaveAcquired(b)])
  {
  }

  /** The plug-in's device list holds the device exactly when the box is acquired. */
  lemma PublishedDevices(st: PropertyState, q: Qualifier, capacity: nat, iconFound: bool)
    requires capacity >= ObjectIdSize
    ensures PropertyData(st, PluginId, Some(GlobalMain(DeviceList)), q, capacity, true, true, iconFound)
         == Got(if st.boxAcquired then ObjectIdSize else 0, Ids(if st.boxAcquired then [DeviceId] else []))
  {
  }

  /**
   * Renaming the box: a real change is reported and saved (a cleared name is
   * removed from storage, and comes back as the default name at the next start).
   */
  lemma RenameIsSaved(st: PropertyState, d: SetData, curve: LevelCurve)
    requires d.size >= StringRefSize
    ensures var o := Write(st, BoxId, Some(GlobalMain(Name)), d, curve);
      && o.status == NoError
      && (Renames(st.boxName, d.name) ==>
          && o.state == st.(boxName := d.name)
          && o.changed == [GlobalMain(Name)]
          && |o.stored| == 1
          && Settings.InitialName(Settings.Persisted(o.stored[0]))
             == (if d.name.Some? then d.name else Some(Config.DefaultBoxName)))
      && (!Renames(st.boxName, d.name) ==> o.state == st && o.changed == [] && o.stored == [])
  {
  }

  /** Repeating a write reports no change and saves nothing: every setter compares before it changes. */
  lemma {:induction false} WritesAreIdempotent(st: PropertyState, id: nat, a: Address, d: SetData, curve: LevelCurve)
    ensures var o1 := Write(st, id, Some(a), d, curve);
      var o2 := Write(o1.state, id, Some(a), d, curve);
      o2.status == o1.status && o2.state == o1.state && o2.changed == [] && o2.stored == []
  {
    var o1 := Write(st, id, Some(a), d, curve);
    match ObjectOf(id)
    case None =>
    case Some(k) =>
      match KindSet(k, a, d, st)
      case Reject(s) =>
      case Unchanged =>
      case Delegate(request) =>
      case Apply(e, onChange) =>
        if o1.state != st {
          AppliedTwice(st, e, curve);
          assert KindSet(k, a, d, o1.state) == Unchanged || KindSet(k, a, d, o1.state) == Apply(e, onChange);
        }
  }

  /** An effect applied to the state it produced changes nothing. */
  lemma AppliedTwice(st: PropertyState, e: Effect, curve: LevelCurve)
    ensures !ApplyEffect(ApplyEffect(st, e, curve).state, e, curve).changed
  {
    if e.RenameBox? && e.name.Some? {
      NameMatchIsEquivalence(e.name.value, e.name.value, e.name.value);
    }
  }
}
