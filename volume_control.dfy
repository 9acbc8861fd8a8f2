// A master volume control, one per direction; both drive the same master gain.
// Its level readings come from a floating-point volume curve that is kept
// abstract here.
module VolumeControl {
  import opened Properties

  const Listed: set<Selector> := {
    BaseClass, Class, Owner, OwnedObjects, ControlScope, ControlElement, ScalarValue,
    DecibelValue, DecibelRange, ConvertScalarToDecibels, ConvertDecibelsToScalar }

  const SettableSelectors: set<Selector> := { ScalarValue, DecibelValue }

  predicate Exists(a: Address)
    ensures Exists(a) <==> a.selector in Listed
  {
    match a.selector
    case BaseClass | Class | Owner | OwnedObjects | ControlScope | ControlElement | ScalarValue
      | DecibelValue | DecibelRange | ConvertScalarToDecibels | ConvertDecibelsToScalar => true
    case _ => false
  }

  lemma ListedCount()
    ensures |Listed| == 11 && SettableSelectors <= Listed
  {
  }

  function IsSettable(a: Address): (r: SettableReply)
    ensures a.selector in Listed ==> r == Settable(a.selector in SettableSelectors)
    ensures a.selector !in Listed ==> r == SettableFailed(UnknownProperty)
  {
    match a.selector
    case ScalarValue | DecibelValue => Settable(true)
    case _ => if Exists(a) then Settable(false) else SettableFailed(UnknownProperty)
  }

  function Size(a: Address): (r: SizeReply)
    ensures r.Sized? <==> a.selector in Listed
    ensures !r.Sized? ==> r == SizeFailed(UnknownProperty)
  {
    match a.selector
    case BaseClass => Sized(ClassIdSize)
    case Class => Sized(ClassIdSize)
    case Owner => Sized(ObjectIdSize)
    case OwnedObjects => Sized(0)
    case ControlScope => Sized(ScopeSize)
    case ControlElement => Sized(ElementSize)
    case ScalarValue => Sized(Float32Size)
    case DecibelValue => Sized(Float32Size)
    case DecibelRange => Sized(ValueRangeSize)
    case ConvertScalarToDecibels => Sized(Float32Size)
    case ConvertDecibelsToScalar => Sized(Float32Size)
    case _ => SizeFailed(UnknownProperty)
  }

  function Get(dir: Direction, a: Address, capacity: nat): (r: GetReply)
    ensures a.selector !in Listed ==> r == GetFailed(UnknownProperty)
    ensures r.Got? <==> Size(a).Sized? && Size(a).bytes <= capacity
    ensures r.Got? ==> r.bytes == Size(a).bytes
    ensures Size(a).Sized? && capacity < Size(a).bytes ==> r == GetFailed(BadPropertySize)
    ensures a.selector == ControlScope && r.Got? ==> r.value == ScopeValue(if dir == In then Input else Output)
    ensures a.selector == ControlElement && r.Got? ==> r.value == Word(ElementMain)
  {
    match a.selector
    case BaseClass => Fixed(capacity, ClassIdSize, ClassValue(LevelControlClass))
    case Class => Fixed(capacity, ClassIdSize, ClassValue(VolumeControlClass))
    case Owner => Fixed(capacity, ObjectIdSize, ObjectValue(DeviceId))
    case OwnedObjects => Got(0, Untouched)
    case ControlScope => Fixed(capacity, ScopeSize, ScopeValue(if dir == In then Input else Output))
    case ControlElement => Fixed(capacity, ElementSize, Word(ElementMain))
    case ScalarValue => Fixed(capacity, Float32Size, Level(NormalizedVolume))
    case DecibelValue => Fixed(capacity, Float32Size, Level(DecibelVolume))
    case DecibelRange => Fixed(capacity, ValueRangeSize, DecibelRangeValue)
    case ConvertScalarToDecibels => Fixed(capacity, Float32Size, Level(ScalarToDecibels))
    case ConvertDecibelsToScalar => Fixed(capacity, Float32Size, Level(DecibelsToScalar))
    case _ => GetFailed(UnknownProperty)
  }

  /** Both level selectors report both level addresses when the gain changes. */
  const LevelAddresses: seq<Address> := [GlobalMain(ScalarValue), GlobalMain(DecibelValue)]

  /** A level write needs at least one Float32; the scalar and the decibel readings change together. */
  function Set(a: Address, d: SetData): (r: SetAction)
    ensures r != Reject(UnknownProperty) <==> IsSettable(a) == Settable(true)
    ensures r.Apply? ==> r.onChange == [GlobalMain(ScalarValue), GlobalMain(DecibelValue)]
    ensures r.Apply? <==> a.selector in SettableSelectors && d.size >= Float32Size
    ensures a.selector == ScalarValue && r.Apply? ==> r.effect == AdjustVolume(Normalized(d.float32))
    ensures a.selector == DecibelValue && r.Apply? ==> r.effect == AdjustVolume(Decibels(d.float32))
    ensures a.selector in SettableSelectors && d.size < Float32Size ==> r == Reject(BadPropertySize)
  {
    match a.selector
    case ScalarValue =>
      if d.size < Float32Size then Reject(BadPropertySize)
      else Apply(AdjustVolume(Normalized(d.float32)), LevelAddresses)
    case DecibelValue =>
      if d.size < Float32Size then Reject(BadPropertySize)
      else Apply(AdjustVolume(Decibels(d.float32)), LevelAddresses)
    case _ => Reject(UnknownProperty)
  }
}
