/**
 * The PCM codec of services/audioUtils.ts: captured float samples are clamped
 * and stored into 16-bit signed integers, packed as mono 16-bit little-endian
 * linear PCM; inbound payloads go through the browser's base64 decoder, whose
 * characters are copied into bytes, and those bytes are read back as 16-bit
 * samples divided by 32768.
 *
 * Samples are exact reals (Float32 rounding is not modelled). The numeric
 * conversions that the JavaScript engine performs on a typed-array store
 * (truncation toward zero, reduction modulo 2^16 or 2^8) are written out.
 */
module AudioUtils {
  import opened Wrappers

  type Byte = x: int | 0 <= x < 0x100
  type Int16 = x: int | -0x8000 <= x < 0x8000

  /** The sample rate the message handler passes to decodeAudioData. */
  const OutputSampleRate: int := 24000

  // ---------------------------------------------------------------------
  // Conversions performed by Math.max/Math.min and by Int16Array stores
  // ---------------------------------------------------------------------

  /** The sample limited to the range [-1, 1]. */
  function Clamp(x: real): (c: real)
    ensures -1.0 <= c <= 1.0
    ensures -1.0 <= x <= 1.0 ==> c == x
  {
    if x < -1.0 then -1.0 else if 1.0 < x then 1.0 else x
  }

  /** Rounding toward zero, the first step of an integer typed-array store. */
  function Truncate(x: real): (n: int)
    ensures 0.0 <= x ==> 0 <= n && n as real <= x < n as real + 1.0
    ensures x < 0.0 ==> n <= 0 && n as real - 1.0 < x <= n as real
  {
    if 0.0 <= x then x.Floor else -((-x).Floor)
  }

  /** Reduction modulo 2^16 into the signed range, the second step of an Int16Array store. */
  function WrapInt16(n: int): (r: Int16)
    ensures (n - r) % 0x1_0000 == 0
    ensures -0x8000 <= n < 0x8000 ==> r == n
  {
    (n + 0x8000) % 0x1_0000 - 0x8000
  }

  /** What storing a finite number x into an Int16Array element keeps. */
  function ToInt16(x: real): Int16 {
    WrapInt16(Truncate(x))
  }

  /** Negative samples scale by 0x8000, the others by 0x7FFF. */
  function Scale(s: real): real {
    if s < 0.0 then s * 32768.0 else s * 32767.0
  }

  /** The 16-bit value createPcmBlob stores for one captured sample. */
  function EncodeSample(x: real): (v: Int16)
    ensures 0.0 <= Clamp(x) ==> v as real <= Clamp(x) * 32767.0 < v as real + 1.0
    ensures Clamp(x) < 0.0 ==> v as real - 1.0 < Clamp(x) * 32768.0 <= v as real
  {
    ToInt16(Scale(Clamp(x)))
  }

  /** The Int16Array createPcmBlob fills for one captured frame. */
  function EncodeFrame(frame: seq<real>): (pcm: seq<Int16>)
    ensures |pcm| == |frame|
    ensures forall i :: 0 <= i < |frame| ==> pcm[i] == EncodeSample(frame[i])
  {
    seq(|frame|, i requires 0 <= i < |frame| => EncodeSample(frame[i]))
  }

  /** A 16-bit value read back as a float sample, divided by 32768. */
  function DecodeSample(v: Int16): (x: real)
    ensures -1.0 <= x < 1.0
    ensures (x < 0.0) == (v < 0)
  {
    v as real / 32768.0
  }

  /** The channel data decodeAudioData fills from a sequence of 16-bit values. */
  function DecodeSamples(pcm: seq<Int16>): (samples: seq<real>)
    ensures |samples| == |pcm|
    ensures forall i :: 0 <= i < |pcm| ==> samples[i] == DecodeSample(pcm[i])
  {
    seq(|pcm|, i requires 0 <= i < |pcm| => DecodeSample(pcm[i]))
  }

  // ---------------------------------------------------------------------
  // Properties of the sample encoding
  // ---------------------------------------------------------------------

  /** The clamp keeps the scaled value inside the 16-bit range, so the store never wraps. */
  lemma EncodeSampleNoWrap(x: real)
    ensures -0x8000 <= Truncate(Scale(Clamp(x))) < 0x8000
    ensures EncodeSample(x) == Truncate(Scale(Clamp(x)))
  {
    var s := Clamp(x);
    if s < 0.0 {
      assert -32768.0 <= s * 32768.0 < 0.0;
    } else {
      assert 0.0 <= s * 32767.0 <= 32767.0;
    }
  }

  /** Out-of-range input saturates; the ends of the range and zero are exact. */
  lemma EncodeSampleExtremes(x: real)
    ensures 1.0 <= x ==> EncodeSample(x) == 0x7FFF
    ensures x <= -1.0 ==> EncodeSample(x) == -0x8000
    ensures x == 0.0 ==> EncodeSample(x) == 0
  {
    EncodeSampleNoWrap(x);
  }

  /** Encoding preserves the sign of the sample. */
  lemma EncodeSampleSign(x: real)
    ensures x < 0.0 ==> EncodeSample(x) <= 0
    ensures 0.0 <= x ==> 0 <= EncodeSample(x)
  {
    EncodeSampleNoWrap(x);
  }

  /** Encoding is monotonic: a larger sample never encodes to a smaller value. */
  lemma EncodeSampleMonotonic(x: real, y: real)
    requires x <= y
    ensures EncodeSample(x) <= EncodeSample(y)
  {
    EncodeSampleNoWrap(x);
    EncodeSampleNoWrap(y);
    var a, b := Scale(Clamp(x)), Scale(Clamp(y));
    assert a <= b;
    if 0.0 <= a {
      FloorMonotonic(a, b);
    } else if b < 0.0 {
      FloorMonotonic(-b, -a);
    }
  }

  lemma FloorMonotonic(a: real, b: real)
    requires a <= b
    ensures a.Floor <= b.Floor
  {
    assert a.Floor as real <= a <= b < b.Floor as real + 1.0;
  }

  /**
   * Decoding an encoded sample gives back the clamped sample to within
   * less than two steps of 1/32768 below it and less than one step above it:
   * negative samples are truncated upward by less than one step; non-negative
   * ones are scaled by 32767 but read back through 32768, which loses up to
   * one more step.
   */
  lemma EncodeDecodeError(x: real)
    ensures -2.0 / 32768.0 < DecodeSample(EncodeSample(x)) - Clamp(x) < 1.0 / 32768.0
  {
    EncodeSampleNoWrap(x);
    var s := Clamp(x);
    var v := Truncate(Scale(s));
    if s < 0.0 {
      assert s * 32768.0 <= v as real < s * 32768.0 + 1.0;
    } else {
      assert s * 32767.0 - 1.0 < v as real <= s * 32767.0;
    }
  }

  /** A sample for which the read-back error exceeds one step of 1/32768. */
  lemma EncodeDecodeErrorExceedsOneStep()
    ensures Clamp(0.99999) - DecodeSample(EncodeSample(0.99999)) > 1.0 / 32768.0
  {
    EncodeSampleNoWrap(0.99999);
    assert Truncate(0.99999 * 32767.0) == 32766;
  }

  /** Without the clamp the store would wrap: 2.0 scaled by 0x7FFF stores as -2. */
  lemma UnclampedStoreWraps()
    ensures ToInt16(2.0 * 32767.0) == -2
  {
    assert Truncate(2.0 * 32767.0) == 65534;
  }

  // ---------------------------------------------------------------------
  // Little-endian packing of 16-bit values
  // ---------------------------------------------------------------------

  function LowByte(v: Int16): Byte {
    (v as int % 0x1_0000) % 0x100
  }

  function HighByte(v: Int16): Byte {
    (v as int % 0x1_0000) / 0x100
  }

  /** The 16-bit signed value an Int16Array view reads from two little-endian bytes. */
  function Int16LE(lo: Byte, hi: Byte): Int16 {
    var u := lo + 0x100 * hi;
    if u < 0x8000 then u else u - 0x1_0000
  }

  /** The bytes of an Int16Array's buffer on a little-endian platform. */
  function PackLE(pcm: seq<Int16>): (bytes: seq<Byte>)
    ensures |bytes| == 2 * |pcm|
  {
    if pcm == [] then [] else [LowByte(pcm[0]), HighByte(pcm[0])] + PackLE(pcm[1..])
  }

  /** The elements of an Int16Array view over a buffer of even length. */
  function UnpackLE(bytes: seq<Byte>): (pcm: seq<Int16>)
    requires |bytes| % 2 == 0
    ensures |pcm| == |bytes| / 2
  {
    seq(|bytes| / 2, i requires 0 <= i < |bytes| / 2 => Int16LE(bytes[2 * i], bytes[2 * i + 1]))
  }

  /** Reading back the two bytes of a value gives the value. */
  lemma Int16LEOfBytes(v: Int16)
    ensures Int16LE(LowByte(v), HighByte(v)) == v
  {
    var u := v as int % 0x1_0000;
    assert LowByte(v) + 0x100 * HighByte(v) == u;
    assert 0 <= v ==> u == v;
    assert v < 0 ==> u == v + 0x1_0000;
  }

  /** Splitting the value read from two bytes gives the two bytes. */
  lemma BytesOfInt16LE(lo: Byte, hi: Byte)
    ensures LowByte(Int16LE(lo, hi)) == lo && HighByte(Int16LE(lo, hi)) == hi
  {
    var u := lo + 0x100 * hi;
    var v := Int16LE(lo, hi);
    assert v as int % 0x1_0000 == u;
    assert u % 0x100 == lo;
    assert u / 0x100 == hi;
  }

  /** Value i occupies bytes 2i (low) and 2i+1 (high) of the packed buffer. */
  lemma {:induction false} PackLEAt(pcm: seq<Int16>, i: nat)
    requires i < |pcm|
    ensures PackLE(pcm)[2 * i] == LowByte(pcm[i])
    ensures PackLE(pcm)[2 * i + 1] == HighByte(pcm[i])
  {
    if i > 0 {
      PackLEAt(pcm[1..], i - 1);
    }
  }

  /** Packing then reading back through an Int16Array view returns the values. */
  lemma UnpackPackLE(pcm: seq<Int16>)
    ensures UnpackLE(PackLE(pcm)) == pcm
  {
    var back := UnpackLE(PackLE(pcm));
    forall i | 0 <= i < |pcm|
      ensures back[i] == pcm[i]
    {
      PackLEAt(pcm, i);
      Int16LEOfBytes(pcm[i]);
    }
  }

  /** Reading an even-length buffer as 16-bit values and packing them gives the buffer. */
  lemma PackUnpackLE(bytes: seq<Byte>)
    requires |bytes| % 2 == 0
    ensures PackLE(UnpackLE(bytes)) == bytes
  {
    var pcm := UnpackLE(bytes);
    var back := PackLE(pcm);
    forall k | 0 <= k < |bytes|
      ensures back[k] == bytes[k]
    {
      var i := k / 2;
      PackLEAt(pcm, i);
      BytesOfInt16LE(bytes[2 * i], bytes[2 * i + 1]);
    }
  }

  // ---------------------------------------------------------------------
  // createPcmBlob
  // ---------------------------------------------------------------------

  /**
   * createPcmBlob: fills an Int16Array with the encoded samples of the frame
   * and returns the bytes of its buffer, which are what the Blob holds.
   */
  method CreatePcmBlob(channelData: array<real>) returns (blob: seq<Byte>)
    ensures blob == PackLE(EncodeFrame(channelData[..]))
    ensures |blob| == 2 * channelData.Length
    ensures forall i :: 0 <= i < channelData.Length ==>
              Int16LE(blob[2 * i], blob[2 * i + 1]) == EncodeSample(channelData[i])
  {
    var pcmData := new Int16[channelData.Length];
    for i := 0 to channelData.Length
      invariant forall k :: 0 <= k < i ==> pcmData[k] == EncodeSample(channelData[k])
    {
      var s := Clamp(channelData[i]);
      pcmData[i] := ToInt16(if s < 0.0 then s * 32768.0 else s * 32767.0);
    }
    assert pcmData[..] == EncodeFrame(channelData[..]);
    blob := PackLE(pcmData[..]);
    forall i | 0 <= i < channelData.Length
      ensures Int16LE(blob[2 * i], blob[2 * i + 1]) == EncodeSample(channelData[i])
    {
      PackLEAt(pcmData[..], i);
      Int16LEOfBytes(pcmData[i]);
    }
  }

  // ---------------------------------------------------------------------
  // decode
  // ---------------------------------------------------------------------

  /** What a Uint8Array keeps of each character code of a string (modulo 2^8). */
  function CharCodes(binary: string): (bytes: seq<Byte>)
    ensures |bytes| == |binary|
  {
    seq(|binary|, i requires 0 <= i < |binary| => (binary[i] as int) % 0x100)
  }

  /** A string whose characters all have codes below 256, as atob returns. */
  predicate IsBinaryString(s: string) {
    forall i :: 0 <= i < |s| ==> (s[i] as int) < 0x100
  }

  /** The string with one character per byte, whose codes are the bytes. */
  function BinaryString(bytes: seq<Byte>): (s: string)
    ensures |s| == |bytes| && IsBinaryString(s)
    ensures forall i :: 0 <= i < |bytes| ==> s[i] as int == bytes[i]
  {
    seq(|bytes|, i requires 0 <= i < |bytes| => bytes[i] as char)
  }

  /** Copying the codes of a byte string recovers the bytes. */
  lemma CharCodesOfBinaryString(bytes: seq<Byte>)
    ensures CharCodes(BinaryString(bytes)) == bytes
  {
  }

  /** For a string atob can return, the copied codes are the characters exactly. */
  lemma BinaryStringOfCharCodes(s: string)
    requires IsBinaryString(s)
    ensures BinaryString(CharCodes(s)) == s
  {
    var back := BinaryString(CharCodes(s));
    forall i | 0 <= i < |s|
      ensures back[i] == s[i]
    {
      assert back[i] as int == s[i] as int;
    }
  }

  /**
   * decode: runs the browser's base64 decoder `atob` (None when it throws on
   * malformed input) and copies the character codes of its result into a
   * Uint8Array, whose buffer is returned.
   */
  method Decode(base64: string, atob: string -> Option<string>) returns (r: Option<seq<Byte>>)
    ensures r.None? <==> atob(base64).None?
    ensures r.Some? ==> |r.value| == |atob(base64).value|
    ensures r.Some? ==> forall i :: 0 <= i < |r.value| ==>
              r.value[i] == (atob(base64).value[i] as int) % 0x100
    ensures r.Some? && IsBinaryString(atob(base64).value) ==> BinaryString(r.value) == atob(base64).value
  {
    var decoded := atob(base64);
    if decoded.None? {
      return None;
    }
    var binaryString := decoded.value;
    var len := |binaryString|;
    var bytes := new Byte[len];
    for i := 0 to len
      invariant forall k :: 0 <= k < i ==> bytes[k] == (binaryString[k] as int) % 0x100
    {
      bytes[i] := (binaryString[i] as int) % 0x100;
    }
    assert bytes[..] == CharCodes(binaryString);
    if IsBinaryString(binaryString) {
      BinaryStringOfCharCodes(binaryString);
    }
    return Some(bytes[..]);
  }

  // ---------------------------------------------------------------------
  // decodeAudioData
  // ---------------------------------------------------------------------

  /** A one-channel AudioBuffer. */
  datatype AudioBuffer = AudioBuffer(channelData: seq<real>, sampleRate: int)

  /** AudioBuffer.duration in seconds. */
  function Duration(buffer: AudioBuffer): real
    requires 0 < buffer.sampleRate
  {
    |buffer.channelData| as real / buffer.sampleRate as real
  }

  /**
   * Why decodeAudioData rejects: an Int16Array view over a buffer of odd
   * byte length throws a RangeError, and createBuffer with length 0 throws.
   */
  datatype AudioError = OddByteLength | EmptyBuffer

  /** The channel data decodeAudioData produces for an even-length buffer. */
  function Samples(bytes: seq<Byte>): (samples: seq<real>)
    requires |bytes| % 2 == 0
    ensures |samples| == |bytes| / 2
  {
    DecodeSamples(UnpackLE(bytes))
  }

  /**
   * decodeAudioData: views the buffer as 16-bit little-endian values and
   * fills a one-channel AudioBuffer with each value divided by 32768.
   */
  method DecodeAudioData(audioData: seq<Byte>, sampleRate: int) returns (r: Result<AudioBuffer, AudioError>)
    requires 0 < sampleRate
    ensures r == Failure(OddByteLength) <==> |audioData| % 2 == 1
    ensures r == Failure(EmptyBuffer) <==> |audioData| == 0
    ensures r.Success? ==> r.value.sampleRate == sampleRate && r.value.channelData == Samples(audioData)
    ensures r.Success? ==> |r.value.channelData| == |audioData| / 2
    ensures r.Success? ==> forall i :: 0 <= i < |audioData| / 2 ==>
              r.value.channelData[i] == Int16LE(audioData[2 * i], audioData[2 * i + 1]) as real / 32768.0 &&
              -1.0 <= r.value.channelData[i] < 1.0
  {
    if |audioData| % 2 == 1 {
      return Failure(OddByteLength);
    }
    var pcm16 := UnpackLE(audioData);
    if |pcm16| == 0 {
      return Failure(EmptyBuffer);
    }
    var channelData := new real[|pcm16|];
    for i := 0 to |pcm16|
      invariant forall k :: 0 <= k < i ==> channelData[k] == pcm16[k] as real / 32768.0
    {
      channelData[i] := pcm16[i] as real / 32768.0;
    }
    assert channelData[..] == Samples(audioData);
    return Success(AudioBuffer(channelData[..], sampleRate));
  }

  /**
   * End to end: the bytes createPcmBlob produces for a frame, read back as
   * decodeAudioData reads them, give one sample per captured sample, each
   * within the error bound of EncodeDecodeError of the clamped input.
   */
  lemma FrameRoundTrip(frame: seq<real>)
    ensures |Samples(PackLE(EncodeFrame(frame)))| == |frame|
    ensures forall i :: 0 <= i < |frame| ==>
              -2.0 / 32768.0 < Samples(PackLE(EncodeFrame(frame)))[i] - Clamp(frame[i]) < 1.0 / 32768.0
  {
    UnpackPackLE(EncodeFrame(frame));
    forall i | 0 <= i < |frame|
      ensures -2.0 / 32768.0 < Samples(PackLE(EncodeFrame(frame)))[i] - Clamp(frame[i]) < 1.0 / 32768.0
    {
      EncodeDecodeError(frame[i]);
    }
  }
}
