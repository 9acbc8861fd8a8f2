// The sample-rate change protocol. A write of the device's nominal sample rate or
// of a stream's format never changes the rate itself: it is validated and, when
// the rate would change, turned into a configuration-change request to the host.
// The rate changes only when the host performs that request.
module RateChange {
  import opened Properties
  import Config

  /** What a rate or format write answers, and the change action it asks the host to perform, if any. */
  datatype ChangeReply = ChangeReply(status: Status, request: Option<nat>)

  /** The change action for a supported rate: the rate as an unsigned integer. It loses nothing. */
  function ChangeAction(sr: real): (action: nat)
    requires Config.IsSupportedRate(sr)
    ensures action as real == sr
  {
    Config.RatesAreIntegral();
    sr.Floor
  }

  /**
   * A nominal-sample-rate write: an unsupported rate is an illegal operation; a
   * supported one is accepted, and a change is requested only if it differs from
   * the current rate.
   */
  function RateRequest(sr: real, current: real): (r: ChangeReply)
    ensures r.status == NoError <==> Config.IsSupportedRate(sr)
    ensures r.status != NoError ==> r == ChangeReply(IllegalOperation, None)
    ensures r.request.Some? <==> Config.IsSupportedRate(sr) && sr != current
    ensures r.request.Some? ==> r.request.value as real == sr
  {
    if !Config.IsSupportedRate(sr) then ChangeReply(IllegalOperation, None)
    else if current != sr then ChangeReply(NoError, Some(ChangeAction(sr)))
    else ChangeReply(NoError, None)
  }

  /**
   * A format write: each field other than the rate is compared with the device's
   * format (format id, flags, bytes per packet, frames per packet, bytes per
   * frame, channels, bits per channel, in that order); a mismatch is an
   * unsupported format. The rate is then checked as a rate write checks it.
   */
  function FormatRequest(f: StreamFormat, current: real): (r: ChangeReply)
    ensures f != BasicDescription(f.sampleRate) ==> r == ChangeReply(UnsupportedFormat, None)
    ensures f == BasicDescription(f.sampleRate) ==> r == RateRequest(f.sampleRate, current)
  {
    if f.formatId != Config.FormatId then ChangeReply(UnsupportedFormat, None)
    else if f.formatFlags != Config.FormatFlags then ChangeReply(UnsupportedFormat, None)
    else if f.bytesPerPacket != Config.BytesPerPacket then ChangeReply(UnsupportedFormat, None)
    else if f.framesPerPacket != Config.FramesPerPacket then ChangeReply(UnsupportedFormat, None)
    else if f.bytesPerFrame != Config.BytesPerFrame then ChangeReply(UnsupportedFormat, None)
    else if f.channelsPerFrame != Config.ChannelCount then ChangeReply(UnsupportedFormat, None)
    else if f.bitsPerChannel != Config.BitsPerChannel then ChangeReply(UnsupportedFormat, None)
    else RateRequest(f.sampleRate, current)
  }

  /** Performing a change: only on the device, and only for an action that is a supported rate. */
  function PerformStatus(deviceId: nat, action: nat): (s: Status)
    ensures s == NoError <==> deviceId == DeviceId && Config.IsSupportedRate(action as real)
    ensures s != NoError ==> s == BadObject
  {
    if deviceId != DeviceId then BadObject
    else if !Config.IsSupportedRate(action as real) then BadObject
    else NoError
  }

  /** Every change the driver requests is one the driver accepts to perform, and it sets the requested rate. */
  lemma RequestedChangesPerform(sr: real, current: real)
    requires RateRequest(sr, current).request.Some?
    ensures PerformStatus(DeviceId, RateRequest(sr, current).request.value) == NoError
    ensures RateRequest(sr, current).request.value as real == sr
  {
  }

  /** Writing the device's own format at a rate is the same as writing that rate. */
  lemma FormatWriteIsRateWrite(sr: real, current: real)
    ensures FormatRequest(BasicDescription(sr), current) == RateRequest(sr, current)
  {
  }
}
