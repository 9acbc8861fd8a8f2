// The driver object: the state the plug-in keeps between host calls, and the
// host entry points that use it — reference counting, initialization, the
// device calls that only check their arguments, IO start and stop, the zero
// time stamp, the IO transfers through the ring buffer, property writes and the
// configuration change. Host callbacks (property-change notifications, deferred
// blocks, storage writes) are recorded in logs instead of being made.
module Driver {
  import opened Properties
  import Config
  import Util
  import Dsp
  import IoCycle
  import RateChange
  import Settings
  import Dispatch

  const UInt32Max: nat := 0xFFFF_FFFF

  /** `n` silent samples. */
  function Zeros(n: nat): (z: seq<real>)
    ensures |z| == n
    ensures forall i :: 0 <= i < n ==> z[i] == 0.0
  {
    seq(n, _ => 0.0)
  }

  /** Host ticks per ring-buffer period at `rate`, whole ticks, from the host clock's ticks per second. */
  function TicksPerPeriod(clockFrequency: nat, rate: real): (t: nat)
    requires rate >= 1.0
    ensures t * rate.Floor <= clockFrequency * Config.RingBufferSize < (t + 1) * rate.Floor
  {
    (clockFrequency * Config.RingBufferSize) / rate.Floor
  }

  // Reference counting: a 32-bit count that saturates at both ends.

  function Retained(count: nat): (r: nat)
    ensures count < UInt32Max ==> r == count + 1
    ensures count >= UInt32Max ==> r == count
  {
    if count < UInt32Max then count + 1 else count
  }

  function Released(count: nat): (r: nat)
    ensures count > 0 ==> r == count - 1
    ensures count == 0 ==> r == 0
  {
    if count > 0 then count - 1 else 0
  }

  /** A release undoes a retain below the maximum; an extra release leaves the count at zero. */
  lemma ReleaseUndoesRetain(count: nat)
    requires count < UInt32Max
    ensures Released(Retained(count)) == count
    ensures Released(Released(0)) == 0
    ensures Retained(UInt32Max) == UInt32Max
  {
  }

  // The device calls that only check their arguments.

  datatype DeviceCall =
    | CreateDevice
    | DestroyDevice
    | AddDeviceClient
    | RemoveDeviceClient
    | BeginIOOperation
    | EndIOOperation
    | AbortConfigurationChange

  /** The driver is not a transport manager: it creates and destroys no device; the others accept only the device. */
  function DeviceCallStatus(call: DeviceCall, deviceId: nat): (s: Status)
    ensures call == CreateDevice || call == DestroyDevice ==> s == UnsupportedOperation
    ensures call != CreateDevice && call != DestroyDevice ==>
      (s == NoError <==> deviceId == DeviceId) && (s != NoError ==> s == BadObject)
  {
    match call
    case CreateDevice | DestroyDevice => UnsupportedOperation
    case _ => if deviceId != DeviceId then BadObject else NoError
  }

  /** The IO operations the host asks about; only reading input and writing the mix are done. */
  datatype IoOperation = ReadInput | WriteMix | OtherOperation(code: nat)

  datatype WillDoReply = WillDoFailed(status: Status) | WillDo(willDo: bool, inPlace: bool)

  /** WillDoIOOperation: the device does reading input and writing the mix, always in place. */
  function WillDoIOOperation(deviceId: nat, op: IoOperation): (r: WillDoReply)
    ensures r.WillDoFailed? <==> deviceId != DeviceId
    ensures r.WillDoFailed? ==> r.status == BadObject
    ensures r.WillDo? ==> r.inPlace && (r.willDo <==> op == ReadInput || op == WriteMix)
  {
    if deviceId != DeviceId then WillDoFailed(BadObject)
    else match op
      case ReadInput | WriteMix => WillDo(true, true)
      case _ => WillDo(false, true)
  }

  /** The DoIOOperation calls that move samples: on the device, for one of its streams, reading or writing. */
  predicate Transfers(deviceId: nat, streamId: nat, op: IoOperation): (b: bool)
    ensures b ==> DoIOStatus(deviceId, streamId) == NoError
  {
    deviceId == DeviceId && (streamId == StreamInputId || streamId == StreamOutputId) && (op == ReadInput || op == WriteMix)
  }

  /** DoIOOperation's answer: a bad device or stream id is refused; any operation is otherwise accepted. */
  function DoIOStatus(deviceId: nat, streamId: nat): (s: Status)
    ensures s != NoError ==> s == BadObject
    ensures s == NoError ==> deviceId == DeviceId && streamId != DeviceId
    ensures s == NoError ==> WillDoIOOperation(deviceId, ReadInput).willDo && WillDoIOOperation(deviceId, WriteMix).willDo
  {
    if deviceId == DeviceId && (streamId == StreamInputId || streamId == StreamOutputId) then NoError else BadObject
  }

  /** A PropertiesChanged call: the object and its changed properties. */
  datatype Notification = Notification(object: nat, addresses: seq<Address>)

  class Driver {
    var refCount: nat
    var boxName: Option<string>
    var boxAcquired: bool
    var sampleRate: real
    /** Host clock ticks per second, read from the timebase at initialization. */
    var clockFrequency: nat
    /** Host ticks per ring-buffer period at the current rate. */
    var ticksPerPeriod: nat
    /** How many clients run IO. */
    var ioRunning: nat
    var numberTimeStamps: nat
    var anchorSampleTime: nat
    var anchorHostTime: nat
    var inputActive: bool
    var outputActive: bool
    var volume: real
    var muted: bool
    /** The ring buffer, allocated while IO runs: RingFrames interleaved frames. */
    var ring: array?<real>
    var lastOutputSampleTime: int
    var isBufferClear: bool

    /** PropertiesChanged calls made to the host. */
    ghost var notified: seq<Notification>
    /** Blocks handed to the host's queue to run later. */
    ghost var deferred: seq<Dispatch.Deferred>
    /** Writes and deletions made in the host's storage. */
    ghost var stored: seq<Settings.Stored>

    ghost predicate Valid()
      reads this, ring
    {
      && refCount <= UInt32Max
      && ioRunning <= IoCycle.UInt64Max
      && (ioRunning > 0 <==> ring != null)
      && (ring != null ==> ring.Length == IoCycle.RingSamples && (isBufferClear ==> ring[..] == Zeros(IoCycle.RingSamples)))
      && Config.IsSupportedRate(sampleRate)
    }

    /** The part of the state the property operations see. */
    function Snapshot(): Dispatch.PropertyState
      reads this
    {
      Dispatch.PropertyState(boxName, boxAcquired, sampleRate, ioRunning > 0, inputActive, outputActive, volume, muted)
    }

    /**
     * The driver as it is before the host initializes it: the fields' initial
     * values, with the reference count set to zero by the constructor.
     */
    constructor()
      ensures Valid()
      ensures Snapshot() == Dispatch.PropertyState(None, true, Config.DefaultSampleRate, false, true, true, 1.0, false)
      ensures refCount == 0 && ioRunning == 0 && ring == null && clockFrequency == 0 && ticksPerPeriod == 0
      ensures numberTimeStamps == 0 && anchorSampleTime == 0 && anchorHostTime == 0
      ensures lastOutputSampleTime == 0 && isBufferClear
      ensures notified == [] && deferred == [] && stored == []
    {
      Config.StaticAssertions();
      refCount := 0;
      boxName := None;
      boxAcquired := true;
      sampleRate := Config.DefaultSampleRate;
      clockFrequency := 0;
      ticksPerPeriod := 0;
      ioRunning := 0;
      numberTimeStamps := 0;
      anchorSampleTime := 0;
      anchorHostTime := 0;
      inputActive := true;
      outputActive := true;
      volume := 1.0;
      muted := false;
      ring := null;
      lastOutputSampleTime := 0;
      isBufferClear := true;
      notified := [];
      deferred := [];
      stored := [];
    }

    method AddRef() returns (count: nat)
      requires Valid()
      modifies this`refCount
      ensures Valid()
      ensures refCount == Retained(old(refCount)) && count == refCount
    {
      if refCount < UInt32Max {
        refCount := refCount + 1;
      }
      count := refCount;
    }

    method Release() returns (count: nat)
      requires Valid()
      modifies this`refCount
      ensures Valid()
      ensures refCount == Released(old(refCount)) && count == refCount
    {
      if refCount > 0 {
        refCount := refCount - 1;
      }
      count := refCount;
    }

    /**
     * Initialize: the box settings are read back from storage, and the ticks per
     * period are computed from the host clock at the current rate.
     */
    method Initialize(acquiredSetting: Settings.StoredValue, nameSetting: Settings.StoredValue, hostClockFrequency: nat)
      returns (status: Status)
      requires Valid()
      modifies this`boxAcquired, this`boxName, this`clockFrequency, this`ticksPerPeriod
      ensures Valid()
      ensures status == NoError
      ensures boxAcquired == Settings.InitialAcquired(acquiredSetting)
      ensures boxName == Settings.InitialName(nameSetting)
      ensures clockFrequency == hostClockFrequency && ticksPerPeriod == TicksPerPeriod(hostClockFrequency, sampleRate)
    {
      boxAcquired := Settings.InitialAcquired(acquiredSetting);
      boxName := Settings.InitialName(nameSetting);
      clockFrequency := hostClockFrequency;
      ticksPerPeriod := TicksPerPeriod(clockFrequency, sampleRate);
      status := NoError;
    }

    /**
     * StartIO: the first client anchors the time line at host time `now` and
     * allocates a silent ring; later clients only count.
     */
    method StartIO(deviceId: nat, now: nat) returns (status: Status)
      requires Valid()
      modifies this`ioRunning, this`numberTimeStamps, this`anchorSampleTime, this`anchorHostTime, this`ring
      ensures Valid()
      ensures var step := if deviceId == DeviceId then IoCycle.StartStep(old(ioRunning)) else IoCycle.Counted(BadObject, old(ioRunning));
        status == step.status && ioRunning == step.running
      ensures deviceId == DeviceId && old(ioRunning) == 0 ==>
        && fresh(ring) && ring[..] == Zeros(IoCycle.RingSamples)
        && numberTimeStamps == 0 && anchorSampleTime == 0 && anchorHostTime == now
      ensures !(deviceId == DeviceId && old(ioRunning) == 0) ==>
        && ring == old(ring) && numberTimeStamps == old(numberTimeStamps)
        && anchorSampleTime == old(anchorSampleTime) && anchorHostTime == old(anchorHostTime)
    {
      if deviceId != DeviceId {
        return BadObject;
      }
      if ioRunning >= IoCycle.UInt64Max {
        return IllegalOperation;
      }
      if ioRunning == 0 {
        ioRunning := 1;
        numberTimeStamps := 0;
        anchorSampleTime := 0;
        anchorHostTime := now;
        ring := new real[IoCycle.RingSamples](_ => 0.0);
        return NoError;
      }
      ioRunning := ioRunning + 1;
      return NoError;
    }

    /** StopIO: the last client to stop releases the ring; an unmatched stop is refused. */
    method StopIO(deviceId: nat) returns (status: Status)
      requires Valid()
      modifies this`ioRunning, this`ring
      ensures Valid()
      ensures var step := if deviceId == DeviceId then IoCycle.StopStep(old(ioRunning)) else IoCycle.Counted(BadObject, old(ioRunning));
        status == step.status && ioRunning == step.running
      ensures deviceId == DeviceId && old(ioRunning) == 1 ==> ring == null
      ensures !(deviceId == DeviceId && old(ioRunning) == 1) ==> ring == old(ring)
    {
      if deviceId != DeviceId {
        return BadObject;
      }
      if ioRunning == 0 {
        return IllegalOperation;
      }
      if ioRunning == 1 {
        ioRunning := 0;
        ring := null;
        return NoError;
      }
      ioRunning := ioRunning - 1;
      return NoError;
    }

    /**
     * GetZeroTimeStamp at host time `now`: moves to the next period once its host
     * time has been reached, and reports the current period's stamp.
     */
    method GetZeroTimeStamp(deviceId: nat, now: nat) returns (status: Status, stamp: IoCycle.ZeroStamp)
      requires Valid()
      modifies this`numberTimeStamps
      ensures Valid()
      ensures deviceId != DeviceId ==> status == BadObject && numberTimeStamps == old(numberTimeStamps)
      ensures deviceId == DeviceId ==>
        && status == NoError
        && numberTimeStamps == IoCycle.NextPeriodCount(old(numberTimeStamps), anchorHostTime, ticksPerPeriod, now)
        && stamp == IoCycle.StampOf(numberTimeStamps, anchorHostTime, ticksPerPeriod)
    {
      stamp := IoCycle.ZeroStamp(0, 0, 0);
      if deviceId != DeviceId {
        return BadObject, stamp;
      }
      var nextHostTime := anchorHostTime + (numberTimeStamps + 1) * ticksPerPeriod;
      if nextHostTime <= now {
        numberTimeStamps := numberTimeStamps + 1;
      }
      stamp := IoCycle.ZeroStamp(numberTimeStamps * Config.RingBufferSize, anchorHostTime + numberTimeStamps * ticksPerPeriod, 1);
      status := NoError;
    }

    /**
     * DoIOOperation on `frames` frames of the interleaved `buffer`. Sample times
     * are whole frames. A read is silent when muted or when no output has been
     * written far enough; otherwise it takes the ring's window at the input time
     * and scales it by the master volume. A write stores the buffer in the ring
     * at the output time.
     */
    method DoIOOperation(deviceId: nat, streamId: nat, op: IoOperation, frames: nat, inputTime: nat, outputTime: nat,
                         buffer: array<real>) returns (status: Status)
      requires Valid()
      requires buffer != ring
      requires Transfers(deviceId, streamId, op) ==>
        ioRunning > 0 && frames <= IoCycle.RingFrames && frames * IoCycle.Channels <= buffer.Length
      modifies this`lastOutputSampleTime, this`isBufferClear, ring, buffer
      ensures Valid()
      ensures status == DoIOStatus(deviceId, streamId)
      ensures !Transfers(deviceId, streamId, op) ==>
        && lastOutputSampleTime == old(lastOutputSampleTime) && isBufferClear == old(isBufferClear)
        && buffer[..] == old(buffer[..]) && (ring != null ==> ring[..] == old(ring[..]))
      ensures Transfers(deviceId, streamId, op) && op == ReadInput ==>
        var silent := IoCycle.ReadIsSilent(muted, old(lastOutputSampleTime), frames, inputTime);
        && buffer[..frames * IoCycle.Channels] == (if silent then Zeros(frames * IoCycle.Channels)
             else IoCycle.Scaled(IoCycle.ReadWindow(old(ring[..]), IoCycle.RingStart(inputTime), frames), volume))
        && (forall k :: frames * IoCycle.Channels <= k < buffer.Length ==> buffer[k] == old(buffer[k]))
        && ring[..] == (if silent then Zeros(IoCycle.RingSamples) else old(ring[..]))
        && isBufferClear == (silent || old(isBufferClear))
        && lastOutputSampleTime == old(lastOutputSampleTime)
      ensures Transfers(deviceId, streamId, op) && op == WriteMix ==>
        && ring[..] == IoCycle.RingAfterWrite(old(ring[..]), old(buffer[..]), IoCycle.RingStart(outputTime), frames)
        && buffer[..] == old(buffer[..])
        && lastOutputSampleTime == outputTime && !isBufferClear
    {
      if deviceId != DeviceId || !Util.IsOneOf(streamId, [StreamInputId, StreamOutputId]) {
        return BadObject;
      }
      if !Util.IsOneOf(op, [ReadInput, WriteMix]) {
        return NoError;
      }
      if op == ReadInput {
        ReadInputCycle(frames, inputTime, buffer);
      } else {
        WriteMixCycle(frames, outputTime, buffer);
      }
      return NoError;
    }

    /** The read half of DoIOOperation. */
    method ReadInputCycle(frames: nat, inputTime: nat, buffer: array<real>)
      requires Valid() && ioRunning > 0 && buffer != ring
      requires frames <= IoCycle.RingFrames && frames * IoCycle.Channels <= buffer.Length
      modifies this`isBufferClear, ring, buffer
      ensures Valid()
      ensures var silent := IoCycle.ReadIsSilent(muted, lastOutputSampleTime, frames, inputTime);
        && buffer[..frames * IoCycle.Channels] == (if silent then Zeros(frames * IoCycle.Channels)
             else IoCycle.Scaled(IoCycle.ReadWindow(old(ring[..]), IoCycle.RingStart(inputTime), frames), volume))
        && (forall k :: frames * IoCycle.Channels <= k < buffer.Length ==> buffer[k] == old(buffer[k]))
        && ring[..] == (if silent then Zeros(IoCycle.RingSamples) else old(ring[..]))
        && isBufferClear == (silent || old(isBufferClear))
    {
      var n := frames * IoCycle.Channels;
      var start := IoCycle.RingStart(inputTime);
      if IoCycle.ReadIsSilent(muted, lastOutputSampleTime, frames, inputTime) {
        Dsp.Clear(buffer, 0, n);
        if !isBufferClear {
          Dsp.Clear(ring, 0, IoCycle.RingSamples);
          isBufferClear := true;
        }
        assert buffer[..n] == Zeros(n);
        assert ring[..] == Zeros(IoCycle.RingSamples);
      } else {
        IoCycle.ReadRing(ring, buffer, start, frames);
        ghost var window := buffer[..n];
        Dsp.Mul(buffer, 0, volume, n, (a: real, b: real) => a * b);
        assert buffer[..n] == IoCycle.Scaled(window, volume);
      }
    }

    /** The write half of DoIOOperation. */
    method WriteMixCycle(frames: nat, outputTime: nat, buffer: array<real>)
      requires Valid() && ioRunning > 0 && buffer != ring
      requires frames <= IoCycle.RingFrames && frames * IoCycle.Channels <= buffer.Length
      modifies this`lastOutputSampleTime, this`isBufferClear, ring
      ensures Valid()
      ensures ring[..] == IoCycle.RingAfterWrite(old(ring[..]), buffer[..], IoCycle.RingStart(outputTime), frames)
      ensures lastOutputSampleTime == outputTime && !isBufferClear
    {
      lastOutputSampleTime := outputTime;
      isBufferClear := false;
      IoCycle.WriteRing(buffer, ring, IoCycle.RingStart(outputTime), frames);
    }

    /**
     * SetPropertyData: the write is carried out as Dispatch.Write says; changed
     * properties are reported to the host, deferred calls queued and storage
     * writes made.
     */
    method SetPropertyData(id: nat, address: Option<Address>, d: SetData, curve: Dispatch.LevelCurve)
      returns (status: Status)
      requires Valid()
      modifies this`boxName, this`boxAcquired, this`inputActive, this`outputActive, this`volume, this`muted
      modifies this`notified, this`deferred, this`stored
      ensures Valid()
      ensures var o := Dispatch.Write(old(Snapshot()), id, address, d, curve);
        && status == o.status
        && Snapshot() == o.state
        && notified == old(notified) + (if o.changed != [] then [Notification(id, o.changed)] else [])
        && deferred == old(deferred) + o.deferred
        && stored == old(stored) + o.stored
    {
      var o := Dispatch.Write(Snapshot(), id, address, d, curve);
      Install(o);
      Record(id, o);
      status := o.status;
    }

    /** Takes over the state a write left. */
    method Install(o: Dispatch.WriteOutcome)
      requires Valid()
      requires o.state.sampleRate == sampleRate && o.state.ioRunning == (ioRunning > 0)
      modifies this`boxName, this`boxAcquired, this`inputActive, this`outputActive, this`volume, this`muted
      ensures Valid()
      ensures Snapshot() == o.state
    {
      boxName := o.state.boxName;
      boxAcquired := o.state.boxAcquired;
      inputActive := o.state.inputActive;
      outputActive := o.state.outputActive;
      volume := o.state.volume;
      muted := o.state.muted;
    }

    /** Records the host calls a write makes: the change notification, the deferred calls and the storage writes. */
    method Record(id: nat, o: Dispatch.WriteOutcome)
      modifies this`notified, this`deferred, this`stored
      ensures notified == old(notified) + (if o.changed != [] then [Notification(id, o.changed)] else [])
      ensures deferred == old(deferred) + o.deferred
      ensures stored == old(stored) + o.stored
    {
      if o.changed != [] {
        notified := notified + [Notification(id, o.changed)];
      }
      deferred := deferred + o.deferred;
      stored := stored + o.stored;
    }

    /**
     * PerformDeviceConfigurationChange: the change action is the new sample rate;
     * the ticks per period follow it.
     */
    method PerformConfigurationChange(deviceId: nat, action: nat) returns (status: Status)
      requires Valid()
      modifies this`sampleRate, this`ticksPerPeriod
      ensures Valid()
      ensures status == RateChange.PerformStatus(deviceId, action)
      ensures status == NoError ==>
        && Snapshot() == Dispatch.Performed(old(Snapshot()), action)
        && ticksPerPeriod == TicksPerPeriod(clockFrequency, sampleRate)
      ensures status != NoError ==> sampleRate == old(sampleRate) && ticksPerPeriod == old(ticksPerPeriod)
    {
      if deviceId != DeviceId {
        return BadObject;
      }
      if !Config.IsSupportedRate(action as real) {
        return BadObject;
      }
      sampleRate := action as real;
      ticksPerPeriod := TicksPerPeriod(clockFrequency, sampleRate);
      return NoError;
    }
  }
}
