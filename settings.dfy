// The box settings the driver keeps in the host's storage: the acquired flag and
// the box name. They are written when a client changes them and read back when
// the driver is initialized.
module Settings {
  import opened Properties
  import Config

  /** A write the driver makes to the host's storage. */
  datatype Stored = SaveAcquired(acquired: bool) | SaveName(name: string) | ForgetName

  /**
   * What a storage read yields: nothing (the read failed or found no value), a
   * boolean, a number, a string, or a value of another type.
   */
  datatype StoredValue = NoValue | StoredBool(b: bool) | StoredNumber(n: int) | StoredString(s: string) | StoredOther

  /** The acquired flag at start-up: acquired unless a boolean says otherwise or a number is zero. */
  function InitialAcquired(v: StoredValue): (acquired: bool)
    ensures !acquired <==> v == StoredBool(false) || v == StoredNumber(0)
  {
    match v
    case StoredBool(b) => b
    case StoredNumber(n) => n != 0
    case _ => true
  }

  /** The box name at start-up: a stored string, otherwise the default box name. */
  function InitialName(v: StoredValue): (name: Option<string>)
    ensures name.Some?
    ensures v.StoredString? ==> name == Some(v.s)
    ensures !v.StoredString? ==> name == Some(Config.DefaultBoxName)
  {
    match v
    case StoredString(s) => Some(s)
    case _ => Some(Config.DefaultBoxName)
  }

  /** The value a storage write leaves for the next start-up to read. */
  function Persisted(w: Stored): StoredValue {
    match w
    case SaveAcquired(b) => StoredBool(b)
    case SaveName(s) => StoredString(s)
    case ForgetName => NoValue
  }

  /**
   * A saved setting comes back as saved at the next start-up; a name that was
   * cleared comes back as the default name, not as no name.
   */
  lemma SettingsSurviveRestart(w: Stored)
    ensures w.SaveAcquired? ==> InitialAcquired(Persisted(w)) == w.acquired
    ensures w.SaveName? ==> InitialName(Persisted(w)) == Some(w.name)
    ensures w.ForgetName? ==> InitialName(Persisted(w)) == Some(Config.DefaultBoxName)
  {
  }
}
