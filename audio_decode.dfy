/**
 * Decoding the narration payload (components/AudioModule.tsx, handleGenerateAll):
 * the characters `atob` returns are stored into a Uint8Array, the bytes are read
 * back as little-endian signed 16-bit samples, and each sample divided by 32768
 * fills the single channel of a 24 000 Hz buffer.
 */
module AudioDecode {
  import opened Wrappers

  newtype byte = x: int | 0 <= x < 256

  /** The sample rate of the synthesised speech and of the buffer built from it. */
  const SampleRate: nat := 24000

  /** The divisor that maps a 16-bit sample into [-1, 1). */
  const Int16Scale: real := 32768.0

  /** Storing a character code into a Uint8Array keeps it modulo 256. */
  function Bytes(binary: string): (bytes: seq<byte>)
    ensures |bytes| == |binary|
  {
    seq(|binary|, i requires 0 <= i < |binary| => (binary[i] as int % 256) as byte)
  }

  /** The binary string `atob` gives for a sequence of bytes: one character per byte. */
  function Latin1(bytes: seq<byte>): (binary: string)
    ensures |binary| == |bytes|
  {
    seq(|bytes|, i requires 0 <= i < |bytes| => bytes[i] as int as char)
  }

  lemma BytesOfLatin1(bytes: seq<byte>)
    ensures Bytes(Latin1(bytes)) == bytes
  {
  }

  /** The signed 16-bit value a little-endian byte pair holds (two's complement). */
  function Int16Of(lo: byte, hi: byte): (v: int)
    ensures -32768 <= v < 32768
    ensures (v + 65536) % 65536 == lo as int + 256 * hi as int
  {
    var u := lo as int + 256 * hi as int;
    if u >= 32768 then u - 65536 else u
  }

  /** The little-endian byte pair of a 16-bit sample. */
  function Int16Bytes(v: int): (pair: seq<byte>)
    requires -32768 <= v < 32768
    ensures |pair| == 2 && Int16Of(pair[0], pair[1]) == v
  {
    var u := if v < 0 then v + 65536 else v;
    [(u % 256) as byte, (u / 256) as byte]
  }

  lemma Int16BytesOf(lo: byte, hi: byte)
    ensures Int16Bytes(Int16Of(lo, hi)) == [lo, hi]
  {
    var u := lo as int + 256 * hi as int;
    assert u % 256 == lo as int && u / 256 == hi as int;
    assert (if Int16Of(lo, hi) < 0 then Int16Of(lo, hi) + 65536 else Int16Of(lo, hi)) == u;
  }

  predicate AllInt16(samples: seq<int>) {
    forall k :: 0 <= k < |samples| ==> -32768 <= samples[k] < 32768
  }

  /** What `new Int16Array(bytes.buffer)` reads: one sample per byte pair, in order. */
  function PcmSamples(bytes: seq<byte>): (samples: seq<int>)
    requires |bytes| % 2 == 0
    ensures |samples| == |bytes| / 2
    ensures forall k :: 0 <= k < |samples| ==> samples[k] == Int16Of(bytes[2 * k], bytes[2 * k + 1])
  {
    if bytes == [] then [] else [Int16Of(bytes[0], bytes[1])] + PcmSamples(bytes[2..])
  }

  /** The 16-bit little-endian PCM encoding the synthesis service produces. */
  function EncodePcm(samples: seq<int>): (bytes: seq<byte>)
    requires AllInt16(samples)
    ensures |bytes| == 2 * |samples|
  {
    if samples == [] then [] else Int16Bytes(samples[0]) + EncodePcm(samples[1..])
  }

  lemma {:induction false} DecodeEncode(samples: seq<int>)
    requires AllInt16(samples)
    ensures PcmSamples(EncodePcm(samples)) == samples
  {
    if samples != [] {
      var bytes := EncodePcm(samples);
      assert bytes[2..] == EncodePcm(samples[1..]);
      DecodeEncode(samples[1..]);
      assert [samples[0]] + samples[1..] == samples;
    }
  }

  lemma {:induction false} EncodeDecode(bytes: seq<byte>)
    requires |bytes| % 2 == 0
    ensures AllInt16(PcmSamples(bytes)) && EncodePcm(PcmSamples(bytes)) == bytes
  {
    if bytes != [] {
      var samples := PcmSamples(bytes);
      assert samples[1..] == PcmSamples(bytes[2..]);
      EncodeDecode(bytes[2..]);
      Int16BytesOf(bytes[0], bytes[1]);
      assert bytes[..2] + bytes[2..] == bytes;
    }
  }

  /** `sample / 32768.0`: the float written into the channel (exact in single precision). */
  function Normalize(v: int): (x: real)
    requires -32768 <= v < 32768
    ensures -1.0 <= x < 1.0
    ensures x * Int16Scale == v as real
  {
    v as real / Int16Scale
  }

  function Normalized(samples: seq<int>): (xs: seq<real>)
    requires AllInt16(samples)
    ensures |xs| == |samples|
  {
    seq(|samples|, k requires 0 <= k < |samples| => Normalize(samples[k]))
  }

  /** A one-channel buffer at SampleRate. */
  datatype AudioBuffer = AudioBuffer(channelData: seq<real>)

  /** AudioBuffer.duration: sample frames over sample rate, in seconds. */
  function Duration(b: AudioBuffer): (d: real)
    ensures d >= 0.0
  {
    |b.channelData| as real / SampleRate as real
  }

  datatype DecodeError =
    | OddByteCount   // new Int16Array(buffer) throws a RangeError
    | EmptyBuffer    // createBuffer(1, 0, 24000) throws a NotSupportedError

  /** Line 90: the character codes copied one by one into a new byte array. */
  method StoreBytes(binary: string) returns (bytes: array<byte>)
    ensures fresh(bytes) && bytes[..] == Bytes(binary)
  {
    bytes := new byte[|binary|];
    for i := 0 to |binary|
      invariant forall k :: 0 <= k < i ==> bytes[k] == (binary[k] as int % 256) as byte
    {
      bytes[i] := (binary[i] as int % 256) as byte;
    }
  }

  /** Lines 95-97: the channel filled with the 16-bit samples of the bytes, scaled to [-1, 1). */
  method FillChannel(bytes: array<byte>) returns (channelData: array<real>)
    requires bytes.Length % 2 == 0
    ensures fresh(channelData) && channelData[..] == Normalized(PcmSamples(bytes[..]))
  {
    ghost var samples := PcmSamples(bytes[..]);
    channelData := new real[bytes.Length / 2];
    for i := 0 to bytes.Length / 2
      invariant forall k :: 0 <= k < i ==> channelData[k] == Normalize(samples[k])
    {
      assert bytes[..][2 * i] == bytes[2 * i] && bytes[..][2 * i + 1] == bytes[2 * i + 1];
      channelData[i] := Normalize(Int16Of(bytes[2 * i], bytes[2 * i + 1]));
    }
  }

  /**
   * Lines 88-97: copy the character codes into a byte array, reinterpret the
   * bytes as 16-bit samples and fill the channel with them, scaled to [-1, 1).
   */
  method DecodePcm(binary: string) returns (r: Result<AudioBuffer, DecodeError>)
    ensures r == Failure(OddByteCount) <==> |binary| % 2 == 1
    ensures r == Failure(EmptyBuffer) <==> |binary| == 0
    ensures r.Success? ==> r.value.channelData == Normalized(PcmSamples(Bytes(binary)))
    ensures r.Success? ==> |r.value.channelData| == |binary| / 2
    ensures r.Success? ==> Duration(r.value) == (|binary| / 2) as real / 24000.0
    ensures r.Success? ==> forall k :: 0 <= k < |r.value.channelData| ==> -1.0 <= r.value.channelData[k] < 1.0
  {
    var bytes := StoreBytes(binary);
    if bytes.Length % 2 != 0 {
      return Failure(OddByteCount);
    }
    if bytes.Length / 2 == 0 {
      return Failure(EmptyBuffer);
    }
    var channelData := FillChannel(bytes);
    r := Success(AudioBuffer(channelData[..]));
  }

  /**
   * Decoding what the service encoded gives back each 16-bit sample divided by
   * 32768: the only loss is the quantisation the encoder already made.
   */
  lemma DecodeSynthesised(samples: seq<int>)
    requires AllInt16(samples)
    ensures |Latin1(EncodePcm(samples))| % 2 == 0
    ensures PcmSamples(Bytes(Latin1(EncodePcm(samples)))) == samples
    ensures forall k :: 0 <= k < |samples| ==>
      Normalized(PcmSamples(Bytes(Latin1(EncodePcm(samples)))))[k] * Int16Scale == samples[k] as real
  {
    BytesOfLatin1(EncodePcm(samples));
    DecodeEncode(samples);
  }
}
