// Build-time configuration of the driver. The values are representative: the
// configuration header itself is not part of this model, only the conditions
// the driver checks about it at compile time.
module Config {
  import Util

  const BitsPerChannel: nat := 32
  const ChannelCount: nat := 2
  /** Frames between two zero time stamps (the zero-time-stamp period). */
  const RingBufferSize: nat := 16384
  /** Frames held by the ring buffer. */
  const RingBufferFrameSize: nat := 65536
  const RingBufferFrameMask: nat := RingBufferFrameSize - 1

  const SupportedSampleRates: seq<real> := [44100.0, 48000.0, 88200.0, 96000.0]
  const DefaultSampleRate: real := 48000.0

  const Hidden: bool := false
  const AllowsDefaultDevice: bool := true

  /** Linear PCM ('lpcm'), packed float samples. */
  const FormatId: nat := 0x6C70636D
  const FormatFlags: nat := 9
  const BytesPerPacket: nat := 8
  const FramesPerPacket: nat := 1
  const BytesPerFrame: nat := 8

  const DeviceName: string := "Virtual Audio Device"
  const ManufacturerName: string := "Meta-Sonic"
  const DeviceUid: string := "virtual-audio-device-uid"
  const DeviceModelUid: string := "virtual-audio-device-model-uid"
  const BoxUid: string := "virtual-audio-box-uid"
  const BoxModelName: string := "Virtual Audio Box"
  const SerialNumber: string := "0000-0001"
  const FirmwareVersion: string := "1.0"
  const DefaultBoxName: string := "Virtual Audio Box"

  predicate IsSupportedRate(r: real) {
    r in SupportedSampleRates
  }

  lemma Pow2Sixteen()
    ensures Util.Pow2(14) == 16384 && Util.Pow2(16) == 65536
  {
    assert Util.Pow2(4) == 16;
    assert Util.Pow2(8) == 256 by {
      assert Util.Pow2(6) == 64;
    }
    assert Util.Pow2(12) == 4096 by {
      assert Util.Pow2(10) == 1024;
    }
    assert Util.Pow2(14) == 16384;
    assert Util.Pow2(16) == 65536;
  }

  /** Every supported rate is a whole number of frames per second. */
  lemma RatesAreIntegral()
    ensures forall i :: 0 <= i < |SupportedSampleRates| ==> SupportedSampleRates[i].Floor as real == SupportedSampleRates[i]
  {
    forall i | 0 <= i < |SupportedSampleRates|
      ensures SupportedSampleRates[i].Floor as real == SupportedSampleRates[i]
    {
      var n: int := [44100, 48000, 88200, 96000][i];
      assert SupportedSampleRates[i] == n as real;
    }
  }

  /** The compile-time checks the driver makes about its configuration. */
  lemma StaticAssertions()
    ensures BitsPerChannel == 32
    ensures Util.IsPowerOfTwo(RingBufferSize)
    ensures Util.IsPowerOfTwo(RingBufferFrameSize)
    ensures IsSupportedRate(DefaultSampleRate)
    ensures forall i :: 0 <= i < |SupportedSampleRates| ==> SupportedSampleRates[i].Floor as real == SupportedSampleRates[i]
  {
    Pow2Sixteen();
    Util.Pow2IsPowerOfTwo(14);
    Util.Pow2IsPowerOfTwo(16);
    RatesAreIntegral();
  }
}
