// The plug-in object: the root of the object tree. It owns the box and, while
// the box is acquired, the device; it translates UIDs to object ids. None of its
// properties can be written.
module PluginObject {
  import opened Properties
  import Config

  const Listed: set<Selector> := {
    BaseClass, Class, Owner, Manufacturer, OwnedObjects, BoxList,
    TranslateUidToBox, DeviceList, TranslateUidToDevice, ResourceBundle }

  predicate Exists(a: Address)
    ensures Exists(a) <==> a.selector in Listed
  {
    match a.selector
    case BaseClass | Class | Owner | Manufacturer | OwnedObjects | BoxList
      | TranslateUidToBox | DeviceList | TranslateUidToDevice | ResourceBundle => true
    case _ => false
  }

  lemma ListedCount()
    ensures |Listed| == 10
  {
  }

  function IsSettable(a: Address): (r: SettableReply)
    ensures a.selector in Listed ==> r == Settable(false)
    ensures a.selector !in Listed ==> r == SettableFailed(UnknownProperty)
  {
    if Exists(a) then Settable(false) else SettableFailed(UnknownProperty)
  }

  /** Objects the plug-in owns: the box, then the device while the box is acquired. */
  function OwnedList(acquired: bool): (ids: seq<nat>)
    ensures |ids| == if acquired then 2 else 1
    ensures ids[0] == BoxId
    ensures DeviceId in ids <==> acquired
  {
    [BoxId] + (if acquired then [DeviceId] else [])
  }

  function BoxListIds(): seq<nat> {
    [BoxId]
  }

  /** Devices the plug-in publishes: the one device, only while the box is acquired. */
  function DeviceListIds(acquired: bool): (ids: seq<nat>)
    ensures |ids| == if acquired then 1 else 0
    ensures forall i :: 0 <= i < |ids| ==> ids[i] == DeviceId
  {
    if acquired then [DeviceId] else []
  }

  /** UID lookups compare exactly (no case folding); no match is kAudioObjectUnknown. */
  function BoxFromUid(uid: string): (id: nat)
    ensures id != UnknownObject <==> uid == Config.BoxUid
    ensures id == BoxId || id == UnknownObject
  {
    if uid == Config.BoxUid then BoxId else UnknownObject
  }

  function DeviceFromUid(uid: string): (id: nat)
    ensures id != UnknownObject <==> uid == Config.DeviceUid
    ensures id == DeviceId || id == UnknownObject
  {
    if uid == Config.DeviceUid then DeviceId else UnknownObject
  }

  function Size(a: Address, acquired: bool): (r: SizeReply)
    ensures r.Sized? <==> a.selector in Listed
    ensures !r.Sized? ==> r == SizeFailed(UnknownProperty)
    ensures a.selector == OwnedObjects ==> r == Sized(if acquired then 8 else 4)
    ensures a.selector == BoxList ==> r == Sized(4)
    ensures a.selector == DeviceList ==> r == Sized(if acquired then 4 else 0)
  {
    match a.selector
    case BaseClass => Sized(ClassIdSize)
    case Class => Sized(ClassIdSize)
    case Owner => Sized(ObjectIdSize)
    case Manufacturer => Sized(StringRefSize)
    case OwnedObjects => Sized(|OwnedList(acquired)| * ClassIdSize)
    case BoxList => Sized(|BoxListIds()| * ClassIdSize)
    case TranslateUidToBox => Sized(ObjectIdSize)
    case DeviceList => Sized(|DeviceListIds(acquired)| * ClassIdSize)
    case TranslateUidToDevice => Sized(ObjectIdSize)
    case ResourceBundle => Sized(StringRefSize)
    case _ => SizeFailed(UnknownProperty)
  }

  /** A UID translation: needs room for an id and a non-null CFString qualifier. */
  function Translate(capacity: nat, q: Qualifier, lookup: string -> nat): (r: GetReply)
    ensures r.Got? <==> capacity >= ObjectIdSize && q.size == StringRefSize && q.uid.Some?
    ensures !r.Got? ==> r == GetFailed(BadPropertySize)
    ensures r.Got? ==> r == Got(ObjectIdSize, ObjectValue(lookup(q.uid.value)))
  {
    if capacity < ObjectIdSize || q.size != StringRefSize || q.uid.None? then GetFailed(BadPropertySize)
    else Got(ObjectIdSize, ObjectValue(lookup(q.uid.value)))
  }

  /**
   * The resource bundle read as the plug-in answers it: the size check is made
   * against the size of an object id (4 bytes), but a CFStringRef (8 bytes) is
   * written and reported.
   */
  function ResourceBundleAsWritten(capacity: nat): GetReply {
    if capacity < ObjectIdSize then GetFailed(BadPropertySize) else Got(StringRefSize, Text(Some("")))
  }

  /** A caller offering 4 bytes is told that 8 were written. */
  lemma ResourceBundleOverrun()
    ensures ResourceBundleAsWritten(4) == Got(8, Text(Some("")))
    ensures ResourceBundleAsWritten(4).bytes > 4
  {
  }

  function Get(a: Address, q: Qualifier, capacity: nat, acquired: bool): (r: GetReply)
    ensures a.selector !in Listed ==> r == GetFailed(UnknownProperty)
    ensures r.Got? ==> r.bytes <= capacity
    ensures Size(a, acquired).Sized? && Size(a, acquired).bytes <= capacity
      && a.selector != TranslateUidToBox && a.selector != TranslateUidToDevice
      ==> r.Got? && r.bytes == Size(a, acquired).bytes
    ensures a.selector == Owner && capacity >= ObjectIdSize ==> r == Got(4, ObjectValue(UnknownObject))
    ensures a.selector == OwnedObjects ==> r == IdPrefix(capacity, OwnedList(acquired))
    ensures a.selector == DeviceList ==> r == IdPrefix(capacity, DeviceListIds(acquired))
    ensures a.selector == BoxList ==> r == IdPrefix(capacity, BoxListIds())
    ensures a.selector == TranslateUidToBox ==> r == Translate(capacity, q, BoxFromUid)
    ensures a.selector == TranslateUidToDevice ==> r == Translate(capacity, q, DeviceFromUid)
  {
    match a.selector
    case BaseClass => Fixed(capacity, ClassIdSize, ClassValue(ObjectClass))
    case Class => Fixed(capacity, ClassIdSize, ClassValue(PlugInClass))
    case Owner => Fixed(capacity, ObjectIdSize, ObjectValue(UnknownObject))
    case Manufacturer => Fixed(capacity, StringRefSize, Text(Some(Config.ManufacturerName)))
    case OwnedObjects => IdPrefix(capacity, OwnedList(acquired))
    case BoxList => IdPrefix(capacity, BoxListIds())
    case TranslateUidToBox => Translate(capacity, q, BoxFromUid)
    case DeviceList => IdPrefix(capacity, DeviceListIds(acquired))
    case TranslateUidToDevice => Translate(capacity, q, DeviceFromUid)
    case ResourceBundle => Fixed(capacity, StringRefSize, Text(Some("")))
    case _ => GetFailed(UnknownProperty)
  }

  /** The corrected resource bundle read differs from the written one exactly on 4..7-byte buffers. */
  lemma ResourceBundleCorrected(capacity: nat, q: Qualifier, acquired: bool)
    ensures Get(GlobalMain(ResourceBundle), q, capacity, acquired) == ResourceBundleAsWritten(capacity)
      <==> !(ObjectIdSize <= capacity < StringRefSize)
  {
  }

  function Set(a: Address): (r: SetAction)
    ensures r == Reject(UnknownProperty)
  {
    Reject(UnknownProperty)
  }
}
