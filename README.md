# RubySynth WaveFile in Dafny

This project models `RubySynth::WaveFile`, the class that writes synthesised
audio to disk as a canonical PCM WAVE (RIFF) file. A `WaveFile` holds:

- the channel count, the sample rate and the bit depth;
- two fields derived from them, `byte_rate` and `block_align`;
- a list of normalised samples.

`save` does four things:

1. It builds the 44-byte header: the RIFF chunk descriptor, the "fmt "
   subchunk and the "data" subchunk header.
2. It quantises every sample to 8 or 16 bits.
3. It packs the quantised values little-endian after the header.
4. It stores the quantised values back into the sample list and returns them.

Modules:

- `LittleEndian` (LittleEndian.dfy) covers Ruby's `pack("v")` and
  `pack("V")`: the low 16 or 32 bits of an integer, least significant byte
  first. It also has the reader's side (`Decode`, `DecodeS16`), which states
  what the bytes mean and proves the round trips.
- `Quantization` (Quantization.dfy) covers truncation toward zero
  (`Float#to_i`), the two quantisers and the data packings `pack("C*")` and
  `pack("v*")`.
- `WaveFormat` (WaveFormat.dfy) holds the header layout and the whole file
  as values: `Header`, `Payload`, `SavedSamples` and `FileContents`. It also
  holds the lemmas about them.
- `RubySynth` (WaveFile.dfy) holds the class `WaveFile`. Its constructor is
  `initialize`, `SetSampleData` is `sample_data=`, and `Save` is `save`.
  `Save` builds the file chunk by chunk. It is proved to return exactly
  `FileContents` of the old sample list and to leave `SavedSamples` in the
  field. The format parameters and the derived fields are `const` fields,
  set once by the constructor and only read afterwards, as the source's
  `attr_reader`s are; the sample list is the one `var` field.

Samples are exact `real`s. The source's float products are modelled as
exact real products; float rounding is left out. Integers are unbounded, as Ruby's are. Every wrap-around happens
where `pack` truncates, and is written out as `%`. Ruby's integer `/` floors
and Dafny's `/` is Euclidean. The two agree here because the divisor is 8.

The model follows the code in three places where the code does not do what
a description of the format would lead one to expect:

- At 8 and 16 bits, the header's data size is
  `samples * channels * (bits / 8)`, but only `samples * (bits / 8)` data
  bytes are written. Header and payload agree only for one channel (or no
  samples) (`WaveFormat.FileLength`).
- At a bit depth other than 8 or 16, no error is raised. The header is
  written (data size still computed) with no data, and the samples stay as
  they were.
- `save` is not idempotent. It replaces the samples with their quantised
  values, so a second `save` quantises those again. At 8 bits a
  full-scale sample goes from byte 254 to byte 129
  (`WaveFormat.SaveTwiceDiffers`, `RubySynth.SaveTwiceExample`).

## Model

| member | source | states |
|---|---|---|
| `LittleEndian.Encode` | lib/rubysynth/wave_file.rb:74-85 | packing into n bytes gives exactly n values, each in 0..255 |
| `LittleEndian.U16` | lib/rubysynth/wave_file.rb:78-83 | `pack("v")` gives two bytes, each in 0..255 |
| `LittleEndian.U32` | lib/rubysynth/wave_file.rb:74-85 | `pack("V")` gives four bytes, each in 0..255 |
| `LittleEndian.DecodeEncode` | lib/rubysynth/wave_file.rb:74-85 | reading an n-byte little-endian field back gives the packed integer modulo 256^n |
| `LittleEndian.EncodeWraps` | lib/rubysynth/wave_file.rb:74-85 | packing depends on the integer only modulo 256^n (silent wrap-around) |
| `LittleEndian.EncodeDecode` | lib/rubysynth/wave_file.rb:74-85 | every byte string is the packing of the value it reads as, so the packing is onto and the field format is exact |
| `LittleEndian.DecodeBounds` | lib/rubysynth/wave_file.rb:74-85 | an n-byte field reads as a value in 0..256^n-1 |
| `LittleEndian.FieldsAreEncodings` | lib/rubysynth/wave_file.rb:74-85 | the "v" and "V" fields are the n-byte little-endian packing at n = 2 and 4 |
| `LittleEndian.DecodeU32` | lib/rubysynth/wave_file.rb:74-85 | a "V" field reads back as the integer modulo 2^32 |
| `LittleEndian.DecodeU16` | lib/rubysynth/wave_file.rb:78-83 | a "v" field reads back as the integer modulo 2^16 |
| `LittleEndian.S16RoundTrip` | lib/rubysynth/wave_file.rb:93-96 | a value in -32768..32767 packed with "v" reads back unchanged as a signed short |
| `Quantization.Trunc` | lib/rubysynth/wave_file.rb:90-95 | `to_i` truncates toward zero: the result is the integer between 0 and x that lies within 1 of x |
| `Quantization.Quantize8` | lib/rubysynth/wave_file.rb:87-90 | a sample in [-1, 1] quantises into 0..254; non-negative samples give at least 127, non-positive ones at most 127 |
| `Quantization.Quantize16` | lib/rubysynth/wave_file.rb:92-95 | a sample in [-1, 1] quantises into -32767..32767, with the sign of the sample |
| `Quantization.QuantizeAll8` | lib/rubysynth/wave_file.rb:90 | the 8-bit map keeps one value per sample, each in 0..254 when the samples are in [-1, 1] |
| `Quantization.QuantizeAll16` | lib/rubysynth/wave_file.rb:95 | the 16-bit map keeps one value per sample, each in -32767..32767 when the samples are in [-1, 1] |
| `Quantization.AsReals` | lib/rubysynth/wave_file.rb:90-95 | the quantised values stored back into the sample list are one per value and integral, each equal to its quantised integer |
| `Quantization.PackBytes` | lib/rubysynth/wave_file.rb:91 | `pack("C*")` gives one byte per value, each in 0..255 |
| `Quantization.PackShorts` | lib/rubysynth/wave_file.rb:96 | `pack("v*")` gives two bytes per value, all in 0..255 |
| `Quantization.PackShortsAt` | lib/rubysynth/wave_file.rb:96 | value i of a "v*" packing is the "v" packing of that value, at bytes 2i and 2i+1 |
| `Quantization.UnpackPackShorts` | lib/rubysynth/wave_file.rb:93-96 | values in the short range packed with "v*" read back unchanged as signed shorts |
| `Quantization.PackBytesNormalised` | lib/rubysynth/wave_file.rb:88-91 | for samples in [-1, 1], `pack("C*")` stores each 8-bit quantised value unchanged, as a byte |
| `Quantization.QuantizeAll16Normalised` | lib/rubysynth/wave_file.rb:92-95 | samples in [-1, 1] quantise into the signed 16-bit range |
| `Quantization.Quantize8Landmarks` | lib/rubysynth/wave_file.rb:90 | at 8 bits, 0 gives 127, 1 gives 254 and -1 gives 0 |
| `Quantization.Quantize16Landmarks` | lib/rubysynth/wave_file.rb:95 | at 16 bits, 0 gives 0, 1 gives 32767 and -1 gives -32767 (never -32768) |
| `Quantization.Requantize8Differs` | lib/rubysynth/wave_file.rb:90 | quantising the stored 254 again gives a byte of 129, not 254 |
| `WaveFormat.Ascii` | lib/rubysynth/wave_file.rb:49-54 | a chunk tag is written as its character codes, one byte per character, in order |
| `WaveFormat.ByteRate` | lib/rubysynth/wave_file.rb:62 | `byte_rate` is the sample rate times the block align |
| `WaveFormat.BlockAlign` | lib/rubysynth/wave_file.rb:63 | `block_align` is the channel count at 8 bits, twice it at 16 bits, and 0 at depths 0 to 7 |
| `WaveFormat.DataSize` | lib/rubysynth/wave_file.rb:71 | the header's data size is the sample count times the block align (counting every channel) |
| `WaveFormat.RiffDescriptor` | lib/rubysynth/wave_file.rb:73-75 | the RIFF chunk descriptor is 12 bytes, each in 0..255 |
| `WaveFormat.FmtSubchunk` | lib/rubysynth/wave_file.rb:76-83 | the "fmt " subchunk is 24 bytes, each in 0..255 |
| `WaveFormat.DataSubchunkHeader` | lib/rubysynth/wave_file.rb:84-85 | the "data" subchunk header is 8 bytes, each in 0..255 |
| `WaveFormat.FileContents` | lib/rubysynth/wave_file.rb:71-99 | the file is 44 bytes plus `samples * (bits / 8)` at 8 and 16 bits, and 44 bytes at any other depth; every element is a byte in 0..255 |
| `WaveFormat.Header` | lib/rubysynth/wave_file.rb:73-85 | the header is exactly 44 bytes, each in 0..255 |
| `WaveFormat.Payload` | lib/rubysynth/wave_file.rb:87-99 | the data section consists of bytes in 0..255 |
| `WaveFormat.SavedSamples` | lib/rubysynth/wave_file.rb:87-99 | the sample list after `save` has as many entries as before |
| `WaveFormat.RiffDescriptorLayout` | lib/rubysynth/wave_file.rb:73-75 | "RIFF" at 0..3, ChunkSize = `pack("V")` of 36 + data size at 4..7, "WAVE" at 8..11 |
| `WaveFormat.FmtSubchunkLayout` | lib/rubysynth/wave_file.rb:76-83 | "fmt ", then 16, 1, channels, rate, byte rate, block align and bits, each at its offset |
| `WaveFormat.DataSubchunkHeaderLayout` | lib/rubysynth/wave_file.rb:84-85 | "data", then `pack("V")` of the data size |
| `WaveFormat.HeaderLayout` | lib/rubysynth/wave_file.rb:73-85 | every header field at its offset 0..43: tags, sizes, Subchunk1Size 16, AudioFormat 1 and the format parameters |
| `WaveFormat.ChunkSizes` | lib/rubysynth/wave_file.rb:71-85 | ChunkSize reads as (36 + data size) mod 2^32 and Subchunk2Size as data size mod 2^32, so they differ by 36 while that fits in 32 bits |
| `WaveFormat.FileLength` | lib/rubysynth/wave_file.rb:71-99 | the file is the header plus `samples * (bits / 8)` bytes at 8 and 16 bits, which equals 44 + data size iff there is one channel (when there are samples); at other depths it is the header alone and the samples are kept |
| `WaveFormat.FileSplit` | lib/rubysynth/wave_file.rb:73-96 | the file is the 44-byte header for the sample count, followed by exactly the data section |
| `WaveFormat.Data8At` | lib/rubysynth/wave_file.rb:87-91 | at 8 bits there is one data byte per sample, byte i being the i-th quantised sample mod 256, and the quantised value itself (at most 254) for a sample in [-1, 1] |
| `WaveFormat.Data16At` | lib/rubysynth/wave_file.rb:92-96 | at 16 bits there are two data bytes per sample, bytes 2i and 2i+1 being `pack("v")` of the i-th quantised sample, which read back as it for a sample in [-1, 1] |
| `WaveFormat.Data16RoundTrip` | lib/rubysynth/wave_file.rb:92-96 | the 16-bit data section of normalised samples reads back to exactly the quantised samples |
| `WaveFormat.SaveTwiceDiffers` | lib/rubysynth/wave_file.rb:90-91 | writing the samples a first `save` left behind gives a different file (129 where 254 was) |
| `WaveFormat.MonoEightBitExample` | lib/rubysynth/wave_file.rb:68-91 | mono, 8000 Hz, 8 bits, samples 0, 1, -1 give the header fields "RIFF", 39, "WAVE", "fmt ", 16, 1, 1, 8000, 8000, 1, 8, "data", 3, followed by the data bytes 127, 254, 0 |
| `WaveFormat.StereoSixteenBitEmptyExample` | lib/rubysynth/wave_file.rb:68-96 | stereo, 44100 Hz, 16 bits with no samples gives a 44-byte file with Subchunk2Size 0 and ChunkSize 36 |
| `RubySynth.WaveFile.constructor` | lib/rubysynth/wave_file.rb:57-66 | stores the format, derives byte rate and block align (byte rate = rate * block align) and starts with no samples |
| `RubySynth.WaveFile.SetSampleData` | lib/rubysynth/wave_file.rb:108 | replaces the sample list, nothing else |
| `RubySynth.SaveTwiceExample` | lib/rubysynth/wave_file.rb:88-91 | example of `save` not being idempotent: mono, 8 bits, samples 0, 1, -1 saved twice give data 127, 254, 0 the first time and 129 in place of 254 the second time |
| `RubySynth.WaveFile.Save` | lib/rubysynth/wave_file.rb:68-104 | returns exactly the file bytes, each in 0..255, for the old samples (with ByteRate = rate * block align and BlockAlign = channels * bits / 8 in the header), replaces the samples by their quantised values at 8 and 16 bits, and returns the new list; format fields unchanged |

## Left out

- Writing the file (`File.open(path, "w")` and `syswrite`) is I/O. `Save`
  returns the bytes instead, and the `path` parameter is dropped.
- Float numerics: the rounding of `sample * 127.0` and `sample * 32767.0`,
  NaN and infinities (where `to_i` raises) are not modelled. Samples are
  exact reals.
- Samples that are not numbers are not modelled. The
  sample list is a sequence of reals.
- The instance variable `@chunkSize` is set in `initialize` and never read,
  so it is not modelled.
- The descriptive comment at the top of the file is not modelled as
  behaviour. The header layout it describes is stated by
  `WaveFormat.HeaderLayout`.
- `RubySynth.WaveFile.Save` appends the header one chunk at a time, not one
  field at a time as the source does. The bytes are the same.
- `RubySynth.WaveFile.SetSampleData`: the sample list is a value. In Ruby
  `sample_data=` stores the caller's own Array, so later edits the caller
  makes to that Array reach the next `save`. That aliasing is not modelled.
- `RubySynth.WaveFile.Save`: the sample list is a value. In Ruby `save`
  returns the `@sample_data` Array itself, which is the caller's own Array
  at depths other than 8 and 16, and edits to it reach the next `save`.
  That aliasing is not modelled. Because the samples are quantised before
  the file is written, a write that fails still leaves them quantised. The
  model has no failing write, so it does not show this.
