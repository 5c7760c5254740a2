/** `RubySynth::WaveFile`: PCM format parameters and a sample list that
    `save` turns into the bytes of a canonical WAVE file. */
module RubySynth {
  import opened LittleEndian
  import opened Quantization
  import opened WaveFormat

  class WaveFile {
    const numChannels: int
    const sampleRate: int
    const bitsPerSample: int
    const byteRate: int
    const blockAlign: int
    /** The samples, in playback order; after `Save` at 8 or 16 bits, the
        quantised integers. */
    var sampleData: seq<real>

    /** The derived fields are those `initialize` computed from the format
        parameters. */
    ghost predicate Valid()
      reads this
    {
      && byteRate == ByteRate(numChannels, sampleRate, bitsPerSample)
      && blockAlign == BlockAlign(numChannels, bitsPerSample)
    }

    /** `initialize`: stores the format, derives byte_rate and block_align,
        and starts with no samples. No parameter is checked. */
    constructor (numChannels: int, sampleRate: int, bitsPerSample: int)
      ensures Valid()
      ensures this.numChannels == numChannels && this.sampleRate == sampleRate
      ensures this.bitsPerSample == bitsPerSample
      ensures byteRate == sampleRate * blockAlign
      ensures sampleData == []
    {
      this.numChannels := numChannels;
      this.sampleRate := sampleRate;
      this.bitsPerSample := bitsPerSample;
      byteRate := sampleRate * numChannels * (bitsPerSample / 8);
      blockAlign := numChannels * (bitsPerSample / 8);
      sampleData := [];
      new;
      assert byteRate == ByteRate(numChannels, sampleRate, bitsPerSample);
    }

    /** `sample_data=`: replaces the sample list wholesale, unchecked. */
    method SetSampleData(samples: seq<real>)
      requires Valid()
      modifies this`sampleData
      ensures Valid()
      ensures sampleData == samples
    {
      sampleData := samples;
    }

    /** `save`: builds the header, quantises and packs the samples at 8 or
        16 bits (storing the quantised values back into the sample list),
        and returns the file bytes together with the new sample list. At any
        other depth only the header is produced. The format parameters and
        derived fields are untouched. */
    method Save() returns (contents: seq<int>, saved: seq<real>)
      requires Valid()
      modifies this`sampleData
      ensures Valid()
      ensures contents == FileContents(numChannels, sampleRate, bitsPerSample,
                                       byteRate, blockAlign, old(sampleData))
      ensures sampleData == SavedSamples(bitsPerSample, old(sampleData))
      ensures saved == sampleData
      ensures AllBytes(contents)
      ensures contents[28..32] == U32(sampleRate * blockAlign)
      ensures contents[32..34] == U16(numChannels * (bitsPerSample / 8))
    {
      var sampleDataSize := |sampleData| * numChannels * (bitsPerSample / 8);
      // The header, chunk by chunk; all numbers little-endian.
      contents := RiffDescriptor(sampleDataSize);
      contents := contents + FmtSubchunk(numChannels, sampleRate, bitsPerSample,
                                         byteRate, blockAlign);
      contents := contents + DataSubchunkHeader(sampleDataSize);
      ghost var header := contents;

      if bitsPerSample == 8 {
        var quantised := QuantizeAll8(sampleData);
        sampleData := AsReals(quantised);
        contents := contents + PackBytes(quantised);
      } else if bitsPerSample == 16 {
        var quantised := QuantizeAll16(sampleData);
        sampleData := AsReals(quantised);
        contents := contents + PackShorts(quantised);
      }
      saved := sampleData;

      assert contents[28..32] == header[28..32] && contents[32..34] == header[32..34];
      HeaderLayout(numChannels, sampleRate, bitsPerSample, byteRate, blockAlign, sampleDataSize);
    }

  }

  /** What a caller sees across two calls of `save`: the first writes the
      expected file and replaces the samples by their quantised values; the
      second quantises those again, so the full-scale sample's byte changes
      from 254 to 129. */
  method SaveTwiceExample() returns (first: seq<int>, second: seq<int>)
    ensures |first| == 47 && |second| == 47
    ensures first[44..] == [127, 254, 0]
    ensures first[45] == 254 && second[45] == 129
  {
    var w := new WaveFile(1, 8000, 8);
    w.SetSampleData([0.0, 1.0, -1.0]);
    var saved;
    first, saved := w.Save();
    MonoEightBitExample();
    assert first[44..] == [127, 254, 0];
    Quantize8Landmarks();
    assert saved == [127.0, 254.0, 0.0];

    var resaved;
    second, resaved := w.Save();
    FileSplit(1, 8000, 8, 8000, 1, saved);
    Data8At(saved, 1);
    Requantize8Differs();
    assert first[45] == 254 && second[45] == 129;
  }
}
