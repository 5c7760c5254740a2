/** The canonical 44-byte PCM WAVE header followed by the data section, as
    `WaveFile#save` assembles them. Every function here is a value-level
    description of what `save` writes and what it leaves in the sample list;
    the class in module RubySynth is proved to produce exactly these. */
module WaveFormat {
  import opened LittleEndian
  import opened Quantization

  const ChunkId: string := "RIFF"
  const Format: string := "WAVE"
  const SubChunk1Id: string := "fmt "
  const SubChunk1Size: int := 16
  const AudioFormat: int := 1
  const SubChunk2Id: string := "data"
  /** The header bytes counted by ChunkSize when the data section is empty. */
  const HeaderSize: int := 36

  /** A four-letter chunk tag written out as its ASCII bytes. */
  function Ascii(s: string): (bs: seq<int>)
    ensures |bs| == |s|
    ensures forall i :: 0 <= i < |s| ==> bs[i] == s[i] as int
  {
    seq(|s|, i requires 0 <= i < |s| => s[i] as int)
  }

  /** `sample_rate * num_channels * (bits_per_sample / 8)`; Ruby's `/` on
      integers floors, which is what Dafny's `/` does for a positive divisor. */
  function ByteRate(numChannels: int, sampleRate: int, bitsPerSample: int): (r: int)
    ensures r == sampleRate * BlockAlign(numChannels, bitsPerSample)
  {
    assert sampleRate * numChannels * (bitsPerSample / 8)
           == sampleRate * (numChannels * (bitsPerSample / 8));
    sampleRate * numChannels * (bitsPerSample / 8)
  }

  /** `num_channels * (bits_per_sample / 8)` */
  function BlockAlign(numChannels: int, bitsPerSample: int): (r: int)
    ensures bitsPerSample == 8 ==> r == numChannels
    ensures bitsPerSample == 16 ==> r == 2 * numChannels
    ensures 0 <= bitsPerSample < 8 ==> r == 0
  {
    numChannels * (bitsPerSample / 8)
  }

  /** Subchunk2Size: the sample count times the channel count times the bytes
      per sample, whether or not the sample list is already interleaved. */
  function DataSize(sampleCount: int, numChannels: int, bitsPerSample: int): (r: int)
    ensures r == sampleCount * BlockAlign(numChannels, bitsPerSample)
  {
    assert sampleCount * numChannels * (bitsPerSample / 8)
           == sampleCount * (numChannels * (bitsPerSample / 8));
    sampleCount * numChannels * (bitsPerSample / 8)
  }

  /** The RIFF chunk descriptor: "RIFF", ChunkSize, "WAVE" (bytes 0..11). */
  function RiffDescriptor(dataSize: int): (bs: seq<int>)
    ensures |bs| == 12 && AllBytes(bs)
  {
    Ascii(ChunkId) + U32(HeaderSize + dataSize) + Ascii(Format)
  }

  /** The "fmt " subchunk (bytes 12..35). */
  function FmtSubchunk(numChannels: int, sampleRate: int, bitsPerSample: int,
                       byteRate: int, blockAlign: int): (bs: seq<int>)
    ensures |bs| == 24 && AllBytes(bs)
  {
    Ascii(SubChunk1Id) + U32(SubChunk1Size) + U16(AudioFormat)
    + U16(numChannels) + U32(sampleRate) + U32(byteRate)
    + U16(blockAlign) + U16(bitsPerSample)
  }

  /** The "data" subchunk's tag and size (bytes 36..43). */
  function DataSubchunkHeader(dataSize: int): (bs: seq<int>)
    ensures |bs| == 8 && AllBytes(bs)
  {
    Ascii(SubChunk2Id) + U32(dataSize)
  }

  /** The 44 header bytes in file order. */
  function Header(numChannels: int, sampleRate: int, bitsPerSample: int,
                  byteRate: int, blockAlign: int, dataSize: int): (h: seq<int>)
    ensures |h| == 44 && AllBytes(h)
  {
    RiffDescriptor(dataSize)
    + FmtSubchunk(numChannels, sampleRate, bitsPerSample, byteRate, blockAlign)
    + DataSubchunkHeader(dataSize)
  }

  /** The data section: quantised samples packed with "C*" at 8 bits and
      "v*" at 16 bits; nothing at all for any other depth. */
  function Payload(bitsPerSample: int, samples: seq<real>): (bs: seq<int>)
    ensures AllBytes(bs)
  {
    if bitsPerSample == 8 then PackBytes(QuantizeAll8(samples))
    else if bitsPerSample == 16 then PackShorts(QuantizeAll16(samples))
    else []
  }

  /** What the sample list holds after `save`: the quantised integers at 8
      and 16 bits, the samples untouched at any other depth. */
  function SavedSamples(bitsPerSample: int, samples: seq<real>): (r: seq<real>)
    ensures |r| == |samples|
  {
    if bitsPerSample == 8 then AsReals(QuantizeAll8(samples))
    else if bitsPerSample == 16 then AsReals(QuantizeAll16(samples))
    else samples
  }

  /** The complete file contents `save` writes. */
  function FileContents(numChannels: int, sampleRate: int, bitsPerSample: int,
                        byteRate: int, blockAlign: int, samples: seq<real>): (bs: seq<int>)
    ensures bitsPerSample == 8 || bitsPerSample == 16 ==>
              |bs| == 44 + |samples| * (bitsPerSample / 8)
    ensures bitsPerSample != 8 && bitsPerSample != 16 ==> |bs| == 44
    ensures AllBytes(bs)
  {
    Header(numChannels, sampleRate, bitsPerSample, byteRate, blockAlign,
           DataSize(|samples|, numChannels, bitsPerSample))
    + Payload(bitsPerSample, samples)
  }

  lemma RiffDescriptorLayout(dataSize: int)
    ensures var d := RiffDescriptor(dataSize);
      && d[0..4] == [82, 73, 70, 70]        // "RIFF"
      && d[4..8] == U32(36 + dataSize)
      && d[8..12] == [87, 65, 86, 69]       // "WAVE"
  {
    assert Ascii(ChunkId) == [82, 73, 70, 70];
    assert Ascii(Format) == [87, 65, 86, 69];
  }

  lemma FmtSubchunkLayout(numChannels: int, sampleRate: int, bitsPerSample: int,
                          byteRate: int, blockAlign: int)
    ensures var f := FmtSubchunk(numChannels, sampleRate, bitsPerSample, byteRate, blockAlign);
      && f[0..4] == [102, 109, 116, 32]     // "fmt "
      && f[4..8] == [16, 0, 0, 0]
      && f[8..10] == [1, 0]
      && f[10..12] == U16(numChannels)
      && f[12..16] == U32(sampleRate)
      && f[16..20] == U32(byteRate)
      && f[20..22] == U16(blockAlign)
      && f[22..24] == U16(bitsPerSample)
  {
    assert Ascii(SubChunk1Id) == [102, 109, 116, 32];
    assert U32(16) == [16, 0, 0, 0];
    assert U16(1) == [1, 0];
  }

  lemma DataSubchunkHeaderLayout(dataSize: int)
    ensures var d := DataSubchunkHeader(dataSize);
      && d[0..4] == [100, 97, 116, 97]      // "data"
      && d[4..8] == U32(dataSize)
  {
    assert Ascii(SubChunk2Id) == [100, 97, 116, 97];
  }

  /** Every header field at its offset: the four tags, the two chunk sizes,
      the fixed Subchunk1Size and AudioFormat, and the format parameters. */
  lemma HeaderLayout(numChannels: int, sampleRate: int, bitsPerSample: int,
                     byteRate: int, blockAlign: int, dataSize: int)
    ensures var h := Header(numChannels, sampleRate, bitsPerSample, byteRate, blockAlign, dataSize);
      && h[0..4] == [82, 73, 70, 70]        // "RIFF"
      && h[4..8] == U32(36 + dataSize)
      && h[8..12] == [87, 65, 86, 69]       // "WAVE"
      && h[12..16] == [102, 109, 116, 32]   // "fmt "
      && h[16..20] == [16, 0, 0, 0]
      && h[20..22] == [1, 0]
      && h[22..24] == U16(numChannels)
      && h[24..28] == U32(sampleRate)
      && h[28..32] == U32(byteRate)
      && h[32..34] == U16(blockAlign)
      && h[34..36] == U16(bitsPerSample)
      && h[36..40] == [100, 97, 116, 97]    // "data"
      && h[40..44] == U32(dataSize)
  {
    var r := RiffDescriptor(dataSize);
    var f := FmtSubchunk(numChannels, sampleRate, bitsPerSample, byteRate, blockAlign);
    var d := DataSubchunkHeader(dataSize);
    var h := Header(numChannels, sampleRate, bitsPerSample, byteRate, blockAlign, dataSize);
    RiffDescriptorLayout(dataSize);
    FmtSubchunkLayout(numChannels, sampleRate, bitsPerSample, byteRate, blockAlign);
    DataSubchunkHeaderLayout(dataSize);
    assert h[0..12] == r;
    assert h[12..36] == f;
    assert h[36..44] == d;
    SliceOfSlice(h, 0, 12);
    SliceOfSlice(h, 12, 36);
    SliceOfSlice(h, 36, 44);
  }

  /** A field inside a part of a byte string is the same field of the whole. */
  lemma SliceOfSlice(h: seq<int>, lo: int, hi: int)
    requires 0 <= lo <= hi <= |h|
    ensures forall i, j :: 0 <= i <= j <= hi - lo ==> h[lo..hi][i..j] == h[lo + i .. lo + j]
  {
    forall i, j | 0 <= i <= j <= hi - lo
      ensures h[lo..hi][i..j] == h[lo + i .. lo + j]
    {
      var inner, outer := h[lo..hi][i..j], h[lo + i .. lo + j];
      assert |inner| == |outer| == j - i;
      forall k | 0 <= k < j - i ensures inner[k] == outer[k] {
        assert inner[k] == h[lo + i + k];
      }
    }
  }

  /** ChunkSize reads back as 36 + data_size and Subchunk2Size as data_size,
      both modulo 2^32; so whenever 36 + data_size fits in 32 bits the two
      fields differ by exactly 36. */
  lemma ChunkSizes(numChannels: int, sampleRate: int, bitsPerSample: int,
                   byteRate: int, blockAlign: int, dataSize: int)
    ensures var h := Header(numChannels, sampleRate, bitsPerSample, byteRate, blockAlign, dataSize);
      && Decode(h[4..8]) == (36 + dataSize) % 0x1_0000_0000
      && Decode(h[40..44]) == dataSize % 0x1_0000_0000
      && (0 <= dataSize && 36 + dataSize < 0x1_0000_0000 ==>
            Decode(h[4..8]) - Decode(h[40..44]) == 36)
  {
    var h := Header(numChannels, sampleRate, bitsPerSample, byteRate, blockAlign, dataSize);
    assert h[4..8] == U32(36 + dataSize) && h[40..44] == U32(dataSize) by {
      HeaderLayout(numChannels, sampleRate, bitsPerSample, byteRate, blockAlign, dataSize);
    }
    DecodeU32(36 + dataSize);
    DecodeU32(dataSize);
    if 0 <= dataSize && 36 + dataSize < 0x1_0000_0000 {
      DivModOfSplit(dataSize, 0x1_0000_0000, 0, dataSize);
      DivModOfSplit(36 + dataSize, 0x1_0000_0000, 0, 36 + dataSize);
    }
  }

  /** At 8 and 16 bits the file is the header plus one or two bytes per
      sample, which matches the header's data_size only for one channel (or
      no samples). At any other depth only the header is written and the
      sample list is left as it was. */
  lemma FileLength(numChannels: int, sampleRate: int, bitsPerSample: int,
                   byteRate: int, blockAlign: int, samples: seq<real>)
    ensures var bs := FileContents(numChannels, sampleRate, bitsPerSample, byteRate, blockAlign, samples);
      && |bs| >= 44
      && bs[..44] == Header(numChannels, sampleRate, bitsPerSample, byteRate, blockAlign,
                            DataSize(|samples|, numChannels, bitsPerSample))
      && ((bitsPerSample == 8 || bitsPerSample == 16) ==>
            |bs| == 44 + |samples| * (bitsPerSample / 8))
      && ((bitsPerSample == 8 || bitsPerSample == 16) && |samples| > 0 ==>
            (|bs| == 44 + DataSize(|samples|, numChannels, bitsPerSample) <==> numChannels == 1))
      && (bitsPerSample != 8 && bitsPerSample != 16 ==>
            |bs| == 44 && SavedSamples(bitsPerSample, samples) == samples)
  {
    var n, b := |samples|, bitsPerSample / 8;
    if bitsPerSample == 8 || bitsPerSample == 16 {
      assert b == 1 || b == 2;
      if n > 0 && n * numChannels * b == n * b {
        assert (n * b) * numChannels == (n * b) * 1;
        assert n * b > 0;
        MulCancel(n * b, numChannels, 1);
      }
    }
  }

  lemma MulCancel(m: int, x: int, y: int)
    requires m > 0 && m * x == m * y
    ensures x == y
  {
    if x < y {
      MulMonotone(m, x + 1, y);
    } else if x > y {
      MulMonotone(m, y + 1, x);
    }
  }

  /** The file is the 44-byte header followed by the data section. */
  lemma FileSplit(numChannels: int, sampleRate: int, bitsPerSample: int,
                  byteRate: int, blockAlign: int, samples: seq<real>)
    ensures var bs := FileContents(numChannels, sampleRate, bitsPerSample, byteRate, blockAlign, samples);
      && |bs| == 44 + |Payload(bitsPerSample, samples)|
      && bs[..44] == Header(numChannels, sampleRate, bitsPerSample, byteRate, blockAlign,
                            DataSize(|samples|, numChannels, bitsPerSample))
      && bs[44..] == Payload(bitsPerSample, samples)
  {
  }

  /** At 8 bits, data byte i is the i-th quantised sample modulo 256; for a
      sample in [-1, 1] it is the quantised value itself, in 0..254. */
  lemma Data8At(samples: seq<real>, i: int)
    requires 0 <= i < |samples|
    ensures var data := Payload(8, samples);
      && |data| == |samples|
      && data[i] == Quantize8(samples[i]) % 256
      && (-1.0 <= samples[i] <= 1.0 ==> data[i] == Quantize8(samples[i]) <= 254)
  {
  }

  /** At 16 bits, data bytes 2i and 2i+1 are the little-endian encoding of
      the i-th quantised sample modulo 65536; for a sample in [-1, 1]
      reading them as a signed short gives the quantised value back. */
  lemma Data16At(samples: seq<real>, i: int)
    requires 0 <= i < |samples|
    ensures var data := Payload(16, samples);
      && |data| == 2 * |samples|
      && data[2 * i .. 2 * i + 2] == U16(Quantize16(samples[i]))
      && (-1.0 <= samples[i] <= 1.0 ==>
            DecodeS16(data[2 * i .. 2 * i + 2]) == Quantize16(samples[i]))
  {
    var q := QuantizeAll16(samples);
    PackShortsAt(q, i);
    if -1.0 <= samples[i] <= 1.0 {
      S16RoundTrip(Quantize16(samples[i]));
    }
  }

  /** At 16 bits the whole data section of normalised samples reads back,
      as signed shorts, to exactly the quantised samples. */
  lemma Data16RoundTrip(samples: seq<real>)
    requires Normalised(samples)
    ensures var data := Payload(16, samples);
      && |data| == 2 * |samples|
      && UnpackShorts(data) == QuantizeAll16(samples)
  {
    QuantizeAll16Normalised(samples);
    UnpackPackShorts(QuantizeAll16(samples));
  }

  /** Saving is not idempotent: saving a full-scale 8-bit sample stores 254
      in the sample list, and saving again writes 129 where 254 was. */
  lemma SaveTwiceDiffers(numChannels: int, sampleRate: int, byteRate: int, blockAlign: int)
    ensures var once := FileContents(numChannels, sampleRate, 8, byteRate, blockAlign, [1.0]);
            var twice := FileContents(numChannels, sampleRate, 8, byteRate, blockAlign,
                                      SavedSamples(8, [1.0]));
      && once[44] == 254 && twice[44] == 129 && once != twice
  {
    Requantize8Differs();
    FileSplit(numChannels, sampleRate, 8, byteRate, blockAlign, [1.0]);
    Data8At([1.0], 0);
    var saved := SavedSamples(8, [1.0]);
    assert saved == [Quantize8(1.0) as real];
    FileSplit(numChannels, sampleRate, 8, byteRate, blockAlign, saved);
    Data8At(saved, 0);
  }

  /** Mono, 8000 Hz, 8 bits, samples 0, 1 and -1: the whole file, field by
      field in the grouping of the RIFF descriptor, the "fmt " subchunk, the
      "data" subchunk header and the three data bytes. */
  lemma MonoEightBitExample()
    ensures FileContents(1, 8000, 8, 8000, 1, [0.0, 1.0, -1.0])
         == ([82, 73, 70, 70] + [39, 0, 0, 0] + [87, 65, 86, 69])
          + ([102, 109, 116, 32] + [16, 0, 0, 0] + [1, 0] + [1, 0]
             + [64, 31, 0, 0] + [64, 31, 0, 0] + [1, 0] + [8, 0])
          + ([100, 97, 116, 97] + [3, 0, 0, 0])
          + [127, 254, 0]
  {
    var samples := [0.0, 1.0, -1.0];
    assert RiffDescriptor(3) == [82, 73, 70, 70] + [39, 0, 0, 0] + [87, 65, 86, 69] by {
      assert Ascii(ChunkId) == [82, 73, 70, 70];
      assert Ascii(Format) == [87, 65, 86, 69];
      assert U32(39) == [39, 0, 0, 0];
    }
    assert FmtSubchunk(1, 8000, 8, 8000, 1)
        == [102, 109, 116, 32] + [16, 0, 0, 0] + [1, 0] + [1, 0]
           + [64, 31, 0, 0] + [64, 31, 0, 0] + [1, 0] + [8, 0] by {
      assert Ascii(SubChunk1Id) == [102, 109, 116, 32];
      assert U32(16) == [16, 0, 0, 0];
      assert U16(1) == [1, 0];
      assert U32(8000) == [64, 31, 0, 0];
      assert U16(8) == [8, 0];
    }
    assert DataSubchunkHeader(3) == [100, 97, 116, 97] + [3, 0, 0, 0] by {
      assert Ascii(SubChunk2Id) == [100, 97, 116, 97];
      assert U32(3) == [3, 0, 0, 0];
    }
    assert DataSize(|samples|, 1, 8) == 3;
    assert Payload(8, samples) == [127, 254, 0] by {
      Quantize8Landmarks();
    }
  }

  /** Stereo, 44100 Hz, 16 bits, no samples: a 44-byte file whose
      Subchunk2Size is 0. */
  lemma StereoSixteenBitEmptyExample()
    ensures var bs := FileContents(2, 44100, 16, 176400, 4, []);
      && |bs| == 44 && bs[40..44] == [0, 0, 0, 0] && bs[4..8] == [36, 0, 0, 0]
  {
    HeaderLayout(2, 44100, 16, 176400, 4, 0);
  }
}
