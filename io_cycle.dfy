// The arithmetic of the real-time IO engine: where a transfer lands in the ring
// buffer, how it splits when it runs past the ring's end, what a write leaves in
// the ring and what a read takes out of it, the zero-time-stamp period counter
// and the count of clients running IO.
module IoCycle {
  import opened Properties
  import Config
  import Util
  import Dsp

  /** Frames the ring holds, and interleaved samples per frame. */
  const RingFrames: nat := Config.RingBufferFrameSize
  const Channels: nat := Config.ChannelCount
  /** Samples the ring holds: one per channel of every frame. */
  const RingSamples: nat := RingFrames * Channels

  const UInt64Max: nat := 0xFFFF_FFFF_FFFF_FFFF

  /**
   * The ring frame a transfer starts on: the sample time masked with the ring's
   * frame mask, which for a power-of-two ring is the sample time modulo its size.
   */
  function RingStart(sampleTime: nat): (start: nat)
    ensures start == sampleTime % RingFrames
    ensures start < RingFrames
  {
    Config.StaticAssertions();
    Util.MaskIsModulo(sampleTime, Config.RingBufferFrameSize);
    Util.BitAnd(sampleTime, Config.RingBufferFrameMask)
  }

  /** The frame counts of the two copies a transfer is made of. */
  datatype Parts = Parts(first: nat, second: nat)

  /**
   * The first copy runs from `start` to the end of the ring or to the end of the
   * transfer, whichever comes first; the second copy, from the start of the ring,
   * takes the rest.
   */
  function Split(start: nat, frames: nat): (p: Parts)
    requires start < RingFrames
    ensures p.first + p.second == frames
    ensures p.first <= RingFrames - start && p.first <= frames
    ensures p.first == RingFrames - start || p.first == frames
    ensures start + p.first <= RingFrames
    ensures p.second > 0 <==> start + frames > RingFrames
    ensures p.second > 0 ==> start + p.first == RingFrames
  {
    var first := RingFrames - start;
    if first >= frames then Parts(frames, 0) else Parts(first, frames - first)
  }

  /** The ring sample that holds channel `c` of the `i`-th frame of a transfer from `start`. */
  function Slot(start: nat, i: nat, c: nat): (k: nat)
    requires c < Channels
    ensures k < RingSamples
  {
    ((start + i) % RingFrames) * Channels + c
  }

  /** How many frames past `start` ring frame `frame` lies, going round the ring. */
  function Distance(start: nat, frame: nat): (d: nat)
    requires start < RingFrames && frame < RingFrames
    ensures d < RingFrames
    ensures (start + d) % RingFrames == frame
  {
    if frame >= start then frame - start else frame + RingFrames - start
  }

  /** The samples a read of `frames` frames from `start` delivers, interleaved frame by frame. */
  function ReadWindow(ring: seq<real>, start: nat, frames: nat): (w: seq<real>)
    requires |ring| == RingSamples
    ensures |w| == frames * Channels
  {
    seq(frames * Channels, j requires 0 <= j < frames * Channels => ring[Slot(start, j / Channels, j % Channels)])
  }

  /**
   * The ring after `frames` frames of interleaved `input` are written from `start`:
   * a sample whose frame lies within the transfer holds the matching input sample,
   * every other sample keeps its value.
   */
  function RingAfterWrite(ring: seq<real>, input: seq<real>, start: nat, frames: nat): (r: seq<real>)
    requires |ring| == RingSamples && start < RingFrames && frames <= RingFrames
    requires frames * Channels <= |input|
    ensures |r| == RingSamples
  {
    seq(RingSamples, k requires 0 <= k < RingSamples =>
      var d := Distance(start, k / Channels);
      if d < frames then input[d * Channels + k % Channels] else ring[k])
  }

  /** Each sample of a ring slot splits into its frame and its channel. */
  lemma SlotParts(k: nat)
    requires k < RingSamples
    ensures k / Channels < RingFrames && k % Channels < Channels
    ensures (k / Channels) * Channels + k % Channels == k
  {
  }

  /** The frame a transfer position lands on is `Distance` frames past the start. */
  lemma DistanceOfSlot(start: nat, i: nat)
    requires start < RingFrames && i < RingFrames
    ensures Distance(start, (start + i) % RingFrames) == i
  {
    if start + i < RingFrames {
      assert (start + i) % RingFrames == start + i;
    } else {
      Util.ModUnique(start + i, RingFrames, 1, start + i - RingFrames);
    }
  }

  /** Channel `c` of the `i`-th written frame holds channel `c` of the `i`-th input frame. */
  lemma WriteLands(ring: seq<real>, input: seq<real>, start: nat, frames: nat, i: nat, c: nat)
    requires |ring| == RingSamples && start < RingFrames && frames <= RingFrames
    requires frames * Channels <= |input|
    requires i < frames && c < Channels
    ensures i * Channels + c < |input|
    ensures RingAfterWrite(ring, input, start, frames)[Slot(start, i, c)] == input[i * Channels + c]
  {
    var k := Slot(start, i, c);
    var frame := (start + i) % RingFrames;
    assert k / Channels == frame && k % Channels == c;
    DistanceOfSlot(start, i);
  }

  /** A ring sample no transfer position maps to keeps its value. */
  lemma WriteKeepsRest(ring: seq<real>, input: seq<real>, start: nat, frames: nat, k: nat)
    requires |ring| == RingSamples && start < RingFrames && frames <= RingFrames
    requires frames * Channels <= |input|
    requires k < RingSamples
    requires forall i, c :: 0 <= i < frames && 0 <= c < Channels ==> Slot(start, i, c) != k
    ensures RingAfterWrite(ring, input, start, frames)[k] == ring[k]
  {
    SlotParts(k);
    assert Slot(start, Distance(start, k / Channels), k % Channels) == k;
  }

  /** Reading back the window just written returns exactly what was written. */
  lemma WriteThenRead(ring: seq<real>, input: seq<real>, start: nat, frames: nat)
    requires |ring| == RingSamples && start < RingFrames && frames <= RingFrames
    requires frames * Channels <= |input|
    ensures ReadWindow(RingAfterWrite(ring, input, start, frames), start, frames) == input[..frames * Channels]
  {
    var w := ReadWindow(RingAfterWrite(ring, input, start, frames), start, frames);
    forall j | 0 <= j < frames * Channels
      ensures w[j] == input[j]
    {
      var i, c := j / Channels, j % Channels;
      WriteLands(ring, input, start, frames, i, c);
      assert i * Channels + c == j;
    }
  }

  /** Where the `j`-th sample of a transfer lives in the ring, copy by copy. */
  lemma SampleOfTransfer(start: nat, frames: nat, j: nat)
    requires start < RingFrames && frames <= RingFrames && j < frames * Channels
    ensures var p := Split(start, frames);
      && (j < p.first * Channels ==> Slot(start, j / Channels, j % Channels) == start * Channels + j)
      && (j >= p.first * Channels ==> Slot(start, j / Channels, j % Channels) == j - p.first * Channels)
  {
    var p := Split(start, frames);
    var i, c := j / Channels, j % Channels;
    assert j == i * Channels + c;
    if j < p.first * Channels {
      assert i < p.first;
      assert (start + i) % RingFrames == start + i;
    } else {
      assert i >= p.first && i < frames;
      assert start + p.first == RingFrames;
      Util.ModUnique(start + i, RingFrames, 1, i - p.first);
    }
  }

  /** Which copy of a write a ring sample receives, or none. */
  lemma SlotOfWrite(start: nat, frames: nat, k: nat)
    requires start < RingFrames && frames <= RingFrames && k < RingSamples
    ensures var p := Split(start, frames);
      var d := Distance(start, k / Channels);
      && (start * Channels <= k < (start + p.first) * Channels ==> d < frames && d * Channels + k % Channels == k - start * Channels)
      && (k < p.second * Channels ==> d < frames && d * Channels + k % Channels == p.first * Channels + k)
      && (!(start * Channels <= k < (start + p.first) * Channels) && !(k < p.second * Channels) ==> d >= frames)
  {
    var p := Split(start, frames);
    SlotParts(k);
    var frame := k / Channels;
    var d := Distance(start, frame);
    if frame >= start {
      assert d == frame - start;
    } else {
      assert d == frame + RingFrames - start;
    }
  }

  /** Copies a transfer's window out of the ring, in the two parts the split gives. */
  method ReadRing(ring: array<real>, out: array<real>, start: nat, frames: nat)
    requires ring.Length == RingSamples && ring != out
    requires start < RingFrames && frames <= RingFrames && frames * Channels <= out.Length
    modifies out
    ensures out[..frames * Channels] == ReadWindow(ring[..], start, frames)
    ensures forall k :: frames * Channels <= k < out.Length ==> out[k] == old(out[k])
  {
    var p := Split(start, frames);
    Dsp.Copy(ring, start * Channels, out, 0, p.first * Channels);
    Dsp.Copy(ring, 0, out, p.first * Channels, p.second * Channels);
    forall j | 0 <= j < frames * Channels
      ensures out[j] == ReadWindow(ring[..], start, frames)[j]
    {
      SampleOfTransfer(start, frames, j);
    }
  }

  /** Copies a transfer's interleaved samples into the ring, in the two parts the split gives. */
  method WriteRing(input: array<real>, ring: array<real>, start: nat, frames: nat)
    requires ring.Length == RingSamples && ring != input
    requires start < RingFrames && frames <= RingFrames && frames * Channels <= input.Length
    modifies ring
    ensures ring[..] == RingAfterWrite(old(ring[..]), input[..], start, frames)
  {
    var p := Split(start, frames);
    Dsp.Copy(input, 0, ring, start * Channels, p.first * Channels);
    Dsp.Copy(input, p.first * Channels, ring, 0, p.second * Channels);
    forall k | 0 <= k < RingSamples
      ensures ring[k] == RingAfterWrite(old(ring[..]), input[..], start, frames)[k]
    {
      SlotOfWrite(start, frames, k);
    }
  }

  /** Every sample of a transfer scaled by the gain, as the in-place multiply leaves them. */
  function Scaled(s: seq<real>, gain: real): (t: seq<real>)
    ensures |t| == |s|
  {
    seq(|s|, i requires 0 <= i < |s| => s[i] * gain)
  }

  /**
   * A read delivers silence when the device is muted, or when the read window
   * reaches past the last output written: `lastOutput - frames < inputTime`.
   */
  predicate ReadIsSilent(muted: bool, lastOutput: int, frames: nat, inputTime: int): (silent: bool)
    ensures muted ==> silent
    ensures inputTime + frames > lastOutput ==> silent
  {
    muted || lastOutput - frames < inputTime
  }

  /** Unmuted, a read is served from the ring exactly when its window ends by the last output time. */
  lemma SilenceIsStaleness(lastOutput: int, frames: nat, inputTime: int)
    ensures !ReadIsSilent(false, lastOutput, frames, inputTime) <==> inputTime + frames <= lastOutput
  {
  }

  // The zero time stamps. With the anchor host time taken when IO started and the
  // host ticks per ring-buffer period `ticks` (an integer here), the n-th stamp is
  // sample time n * ring_buffer_size at host time anchor + n * ticks.

  /** One more period once the next period's host time has been reached, else the same count. */
  function NextPeriodCount(n: nat, anchor: nat, ticks: nat, now: nat): (m: nat)
    ensures n <= m <= n + 1
  {
    if anchor + (n + 1) * ticks <= now then n + 1 else n
  }

  datatype ZeroStamp = ZeroStamp(sampleTime: nat, hostTime: nat, seed: nat)

  /** The stamp of period `n`; the seed is always 1, as the timeline never jumps. */
  function StampOf(n: nat, anchor: nat, ticks: nat): (z: ZeroStamp)
    ensures z.sampleTime % Config.RingBufferSize == 0
    ensures z.sampleTime / Config.RingBufferSize == n
    ensures z.hostTime == anchor + (z.sampleTime / Config.RingBufferSize) * ticks
    ensures z.seed == 1
  {
    ZeroStamp(n * Config.RingBufferSize, anchor + n * ticks, 1)
  }

  /** The count moves on exactly when the next boundary has been reached by `now`. */
  lemma AdvancesWhenDue(n: nat, anchor: nat, ticks: nat, now: nat)
    ensures NextPeriodCount(n, anchor, ticks, now) == n + 1 <==> StampOf(n + 1, anchor, ticks).hostTime <= now
  {
  }

  lemma MulMonotone(a: nat, b: nat, m: nat)
    requires a <= b
    ensures a * m <= b * m
  {
    assert b * m == a * m + (b - a) * m;
  }

  /** A stamp that was not in the future stays not in the future. */
  lemma StampNeverAhead(n: nat, anchor: nat, ticks: nat, now: nat)
    requires StampOf(n, anchor, ticks).hostTime <= now
    ensures StampOf(NextPeriodCount(n, anchor, ticks, now), anchor, ticks).hostTime <= now
  {
  }

  /** A later call never reports an earlier period. */
  lemma PeriodCountMonotone(n: nat, anchor: nat, ticks: nat, now: nat, later: nat)
    requires now <= later
    ensures NextPeriodCount(n, anchor, ticks, now) <= NextPeriodCount(n, anchor, ticks, later)
  {
  }

  /** Stamps of later periods are later in both sample and host time. */
  lemma StampsOrdered(n: nat, m: nat, anchor: nat, ticks: nat)
    requires n <= m
    ensures StampOf(n, anchor, ticks).sampleTime <= StampOf(m, anchor, ticks).sampleTime
    ensures StampOf(n, anchor, ticks).hostTime <= StampOf(m, anchor, ticks).hostTime
  {
    MulMonotone(n, m, Config.RingBufferSize);
    MulMonotone(n, m, ticks);
  }

  /** However far behind the host clock is, one call catches up by at most one period. */
  lemma CatchesUpOnePeriod(n: nat, anchor: nat, ticks: nat, now: nat)
    requires StampOf(n + 2, anchor, ticks).hostTime <= now
    ensures NextPeriodCount(n, anchor, ticks, now) == n + 1
    ensures StampOf(NextPeriodCount(n, anchor, ticks, now) + 1, anchor, ticks).hostTime <= now
  {
    MulMonotone(n + 1, n + 2, ticks);
  }

  // The count of clients running IO, an unsigned 64-bit counter.

  /** What a start call answers and what the count becomes. */
  datatype Counted = Counted(status: Status, running: nat)

  /** A start refuses once the counter is at its maximum, otherwise counts one more client. */
  function StartStep(running: nat): (r: Counted)
    ensures running >= UInt64Max ==> r == Counted(IllegalOperation, running)
    ensures running < UInt64Max ==> r == Counted(NoError, running + 1)
  {
    if running >= UInt64Max then Counted(IllegalOperation, running) else Counted(NoError, running + 1)
  }

  /** A stop refuses when no client runs IO, otherwise counts one client less. */
  function StopStep(running: nat): (r: Counted)
    ensures running == 0 ==> r == Counted(IllegalOperation, 0)
    ensures running > 0 ==> r == Counted(NoError, running - 1)
  {
    if running == 0 then Counted(IllegalOperation, 0) else Counted(NoError, running - 1)
  }

  /** The count after `k` start calls. */
  function Starts(k: nat, running: nat): nat {
    if k == 0 then running else Starts(k - 1, StartStep(running).running)
  }

  /** The count after `k` stop calls. */
  function Stops(k: nat, running: nat): nat {
    if k == 0 then running else Stops(k - 1, StopStep(running).running)
  }

  lemma {:induction false} StartsCount(k: nat, running: nat)
    requires running + k <= UInt64Max
    ensures Starts(k, running) == running + k
  {
    if k > 0 {
      StartsCount(k - 1, running + 1);
    }
  }

  lemma {:induction false} StopsCount(k: nat, running: nat)
    requires k <= running
    ensures Stops(k, running) == running - k
  {
    if k > 0 {
      StopsCount(k - 1, running - 1);
    }
  }

  /** As many stops as starts bring an idle device back to idle. */
  lemma StartsThenStops(k: nat)
    requires k <= UInt64Max
    ensures Starts(k, 0) == k
    ensures Stops(k, Starts(k, 0)) == 0
  {
    StartsCount(k, 0);
    StopsCount(k, k);
  }

  /** A stop more than there were starts is refused and leaves the device idle. */
  lemma ExtraStopRefused(k: nat)
    requires k <= UInt64Max
    ensures StopStep(Stops(k, Starts(k, 0))) == Counted(IllegalOperation, 0)
  {
    StartsThenStops(k);
  }
}
