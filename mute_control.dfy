// A master mute control, one per direction; both read and write the same
// master mute flag.
module MuteControl {
  import opened Properties

  const Listed: set<Selector> := {
    BaseClass, Class, Owner, OwnedObjects, ControlScope, ControlElement, BooleanValue }

  predicate Exists(a: Address)
    ensures Exists(a) <==> a.selector in Listed
  {
    match a.selector
    case BaseClass | Class | Owner | OwnedObjects | ControlScope | ControlElement | BooleanValue => true
    case _ => false
  }

  lemma ListedCount()
    ensures |Listed| == 7
  {
  }

  function IsSettable(a: Address): (r: SettableReply)
    ensures a.selector in Listed ==> r == Settable(a.selector == BooleanValue)
    ensures a.selector !in Listed ==> r == SettableFailed(UnknownProperty)
  {
    match a.selector
    case BooleanValue => Settable(true)
    case _ => if Exists(a) then Settable(false) else SettableFailed(UnknownProperty)
  }

  function Size(a: Address): (r: SizeReply)
    ensures r.Sized? <==> a.selector in Listed
    ensures !r.Sized? ==> r == SizeFailed(UnknownProperty)
  {
    match a.selector
    case BaseClass => Sized(ClassIdSize)
    case Class => Sized(ClassIdSize)
    case Owner => Sized(ObjectIdSize)
    case OwnedObjects => Sized(0)
    case ControlScope => Sized(ScopeSize)
    case ControlElement => Sized(ElementSize)
    case BooleanValue => Sized(UInt32Size)
    case _ => SizeFailed(UnknownProperty)
  }

  function Get(dir: Direction, a: Address, capacity: nat, muted: bool): (r: GetReply)
    ensures a.selector !in Listed ==> r == GetFailed(UnknownProperty)
    ensures r.Got? <==> Size(a).Sized? && Size(a).bytes <= capacity
    ensures r.Got? ==> r.bytes == Size(a).bytes
    ensures Size(a).Sized? && capacity < Size(a).bytes ==> r == GetFailed(BadPropertySize)
    ensures a.selector == BooleanValue && r.Got? ==> r == Got(4, Word(if muted then 1 else 0))
    ensures a.selector == ControlScope && r.Got? ==> r.value == ScopeValue(if dir == In then Input else Output)
  {
    match a.selector
    case BaseClass => Fixed(capacity, ClassIdSize, ClassValue(BooleanControlClass))
    case Class => Fixed(capacity, ClassIdSize, ClassValue(MuteControlClass))
    case Owner => Fixed(capacity, ObjectIdSize, ObjectValue(DeviceId))
    case OwnedObjects => Got(0, Untouched)
    case ControlScope => Fixed(capacity, ScopeSize, ScopeValue(if dir == In then Input else Output))
    case ControlElement => Fixed(capacity, ElementSize, Word(ElementMain))
    case BooleanValue => Fixed(capacity, UInt32Size, Word(BoolWord(muted)))
    case _ => GetFailed(UnknownProperty)
  }

  /**
   * A mute write needs exactly one UInt32, nonzero meaning muted. The control
   * itself compares with the current flag `muted`: only a different value is
   * applied and reported.
   */
  function Set(a: Address, d: SetData, muted: bool): (r: SetAction)
    ensures r != Reject(UnknownProperty) <==> IsSettable(a) == Settable(true)
    ensures r.Apply? <==> a.selector == BooleanValue && d.size == UInt32Size && (d.word != 0) != muted
    ensures r.Apply? ==> r == Apply(MuteMaster(!muted), [GlobalMain(BooleanValue)])
    ensures r == Unchanged <==> a.selector == BooleanValue && d.size == UInt32Size && (d.word != 0) == muted
    ensures a.selector == BooleanValue && d.size != UInt32Size ==> r == Reject(BadPropertySize)
  {
    match a.selector
    case BooleanValue =>
      if d.size != UInt32Size then Reject(BadPropertySize)
      else
        var m := d.word != 0;
        if muted != m then Apply(MuteMaster(m), [GlobalMain(BooleanValue)]) else Unchanged
    case _ => Reject(UnknownProperty)
  }
}
