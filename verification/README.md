# CSCore `Extensions` — a Dafny model

This project models the static helper class `CSCore.Extensions` of the CSCore
audio library (`CSCore/Extensions.cs`), in one Dafny module, `Extensions`
(`extensions.dfy`):

- **Adapter selection.** `ToWaveSource` turns a sample source into a wave
  source. It picks one of four converters by the requested bit depth (8, 16,
  24, 32). `ToSampleSource` rejects a null wave source and otherwise defers to
  the converter factory.
- **Byte/time conversion.** `GetMilliseconds` and `GetBytes` check their
  arguments, then dispatch on the stream's runtime type. A wave source counts
  in bytes. A sample source counts in 32-bit float samples, 4 bytes each.
  `GetTime`, `GetLength`, `GetPosition` and the `TimeSpan` overload of
  `GetBytes` are wrappers around them.
- **Buffer guard.** `CheckBuffer` reuses the caller's array when it is big
  enough (or exactly the right size) and allocates a new one otherwise.
- **Small helpers.** `Add` (lazy append), `ToShort` (MP3 channel mode to
  channel count) and the 16-bit `LowWord`/`HighWord` getters and setters.

Modelling choices:

- A C# reference that may be null is an `Option`; a thrown exception is an
  `Err` of `Result`, carrying the exception kind and the parameter name the
  source passes.
- A stream is a record with two flags, `isWaveSource` and `isSampleSource`,
  because one C# object may implement both interfaces (or neither).
- A `WaveFormat` is seen only through its two conversions
  `bytesToMilliseconds` and `millisecondsToBytes`. They are function-valued
  fields, so nothing is assumed about their arithmetic.
- A `TimeSpan` is a whole number of 100-ns ticks. `TimeSpan.FromMilliseconds`
  of a whole number of milliseconds is exact. `(long)TotalMilliseconds`
  truncates toward zero.
- C#'s `default(T)` is passed to `CheckBuffer` as the parameter `zero`.
- The `int` and `uint` overloads of the word helpers compute the same bit
  pattern. In the `int` `LowWord` setter and `int` `HighWord` getter, and in
  the `uint` setters, the operands are promoted to `long` (by the `uint`
  literal `0xFFFF0000`, or by adding a `uint` to an `int`); the sum may then
  be negative (the `uint` `HighWord` setter) but the final cast keeps its low
  32 bits. The `int` `HighWord` setter stays in `int`. Because the masked
  halves are disjoint, every sum equals the bitwise or of its operands on the
  low 32 bits. One `bv32` function models each pair of overloads: `LowWord`, `HighWord`, `WithLowWord` (the setter
  `LowWord(number, newValue)`) and `WithHighWord` (the setter
  `HighWord(number, newValue)`).

Notable behaviours of the code that the model keeps:

- An unsupported bit depth in `ToWaveSource` raises `ArgumentOutOfRange`
  (not `NotSupportedException`).
- `GetBytes` on a sample source converts four times the time
  (`MillisecondsToBytes(milliseconds * 4)`), although `GetMilliseconds`
  turns sample units into bytes with `bytes * 4`, whose inverse divides the
  byte count by 4. See Findings.
- `CheckBuffer` does not reject a negative size. It reuses a non-null array
  when `exactSize` is false. Otherwise, allocating a negative-length array
  raises `OverflowException`.
- `GetLength(null)` and `GetPosition(null)` read `source.Length` or
  `source.Position` before `GetMilliseconds` can check for null. They raise
  `NullReferenceException`, not `ArgumentNullException`.

## Model

| member | source | states |
|---|---|---|
| Extensions.ToWaveSource | CSCore/Extensions.cs:12-27 | a null source fails with ArgumentNull("sampleSource") whatever the bit depth; a non-null source succeeds exactly for bits 8, 16, 24 and 32, and the converter wraps that source and produces that bit depth; any other bit depth fails with ArgumentOutOfRange("bits") |
| Extensions.OneConverterPerBitDepth | CSCore/Extensions.cs:17-24 | each converter kind is selected by exactly the bit depth it produces (8 → Pcm8, 16 → Pcm16, 24 → Pcm24, 32 → IeeeFloat32) |
| Extensions.ToSampleSource | CSCore/Extensions.cs:29-35 | fails with ArgumentNull("waveSource") exactly when the source is null; otherwise the factory's converter wraps that source |
| Extensions.GetMilliseconds | CSCore/Extensions.cs:52-71 | null source → ArgumentNull("source") first; then negative bytes → ArgumentOutOfRange("bytes"); it fails exactly in those cases and when the stream is neither kind (NotSupported); a wave source gives BytesToMilliseconds(bytes), a source that is only a sample source gives BytesToMilliseconds(bytes * 4) |
| Extensions.GetBytes | CSCore/Extensions.cs:78-97 | the same guards in the same order, with parameter name "milliseconds"; a wave source gives MillisecondsToBytes(ms), a source that is only a sample source gives MillisecondsToBytes(ms * 4) |
| Extensions.WaveTestTakesPriority | CSCore/Extensions.cs:59-89 | a stream implementing both interfaces behaves, in both conversions, exactly like a plain wave source |
| Extensions.SampleUnitsAreFourBytes | CSCore/Extensions.cs:63-92 | for a source that is only a sample source, both conversions at n equal the wave-source conversions at 4 * n |
| Extensions.FailuresDoNotConsultFormat | CSCore/Extensions.cs:54-96 | whenever either conversion fails, it fails identically for every format, so the format is never consulted on an error path |
| Extensions.FromMilliseconds | CSCore/Extensions.cs:49 | a whole number of milliseconds becomes 10000 ticks each and reads back as the same number of whole milliseconds |
| Extensions.WholeMilliseconds | CSCore/Extensions.cs:75 | the number of whole milliseconds in the span, truncated toward zero (the span lies within one millisecond of it, on the side away from zero); hence 0 exactly for spans strictly between -1 ms and 1 ms, and negative exactly for spans of -1 ms or less |
| Extensions.GetTime | CSCore/Extensions.cs:47-50 | succeeds exactly when GetMilliseconds does, with exactly FromMilliseconds of its result; otherwise passes GetMilliseconds' exception through |
| Extensions.GetLength | CSCore/Extensions.cs:37-40 | null source → NullReference (never ArgumentNull); otherwise exactly FromMilliseconds of GetMilliseconds of the stream's length, or that call's own exception |
| Extensions.GetPosition | CSCore/Extensions.cs:42-45 | null source → NullReference (never ArgumentNull); otherwise exactly FromMilliseconds of GetMilliseconds of the stream's position, or that call's own exception |
| Extensions.GetBytesAt | CSCore/Extensions.cs:73-76 | equals GetBytes of the span's truncated whole milliseconds; so for a non-null source ArgumentOutOfRange("milliseconds") is raised exactly for spans of -1 ms or less, and any span strictly between -1 ms and 1 ms converts like 0 ms |
| Extensions.GetBytesAtWholeMilliseconds | CSCore/Extensions.cs:73-76 | on a whole-millisecond span the TimeSpan overload equals the millisecond overload |
| Extensions.GetBytesIntended | CSCore/Extensions.cs:78-97 | corrected GetBytes: same failures as GetBytes; a wave source is unchanged; a sample source gives the wave-source byte count divided by 4, truncated toward zero |
| Extensions.IntendedSampleRoundTrip | CSCore/Extensions.cs:63-92 | with the corrected GetBytes, units → ms → units is the identity on a sample source whenever the format maps the byte count 4 * units to a time and back exactly |
| Extensions.SampleRoundTripFailsAsWritten | CSCore/Extensions.cs:89-92 | for a 176400 bytes/s format, 44100 sample units are 1000 ms, but GetBytes turns 1000 ms into 705600 rather than 44100; the corrected version gives 44100 |
| Extensions.ToShort | CSCore/Extensions.cs:99-111 | the result is 0, 1 or 2; it is 1 exactly for Mono, 2 exactly for Stereo, JointStereo and DualChannel, and 0 exactly for any other value |
| Extensions.CheckBuffer | CSCore/Extensions.cs:113-120 | returns the caller's array itself when it is non-null and long enough (exactly `size` long when exactSize); otherwise a fresh array of exactly `size` default elements, or Overflow for a negative size; a returned array is at least `size` long, and exactly `size` long when exactSize |
| Extensions.Add | CSCore/Extensions.cs:122-129 | yields one more element than `e`: all of `e` in order, then `value` |
| Extensions.LowWord | CSCore/Extensions.cs:136-137 | below 2^16 and equal to the number on its low 16 bits (the uint overload at lines 145-146 is the same bit pattern) |
| Extensions.HighWord | CSCore/Extensions.cs:140-141 | low 16 bits zero and equal to the number on its high 16 bits, left in place rather than shifted down (uint overload: lines 149-150) |
| Extensions.WordsRecombine | CSCore/Extensions.cs:136-141 | HighWord(n) combined with LowWord(n), by bitwise or and by addition, gives n back |
| Extensions.WithLowWord | CSCore/Extensions.cs:138-139 | the result keeps the number's high half and has newValue's low 16 bits as its low half; the sum equals the bitwise or, so no carry (uint overload: lines 147-148) |
| Extensions.WithHighWord | CSCore/Extensions.cs:142-143 | the result keeps the number's low half and has newValue's low 16 bits as its high half; the sum equals the bitwise or, so no carry (uint overload: lines 151-152) |

## Findings

| source | as written | input that shows it | evidently intended | confidence | as-written member | corrected member |
|---|---|---|---|---|---|---|
| CSCore/Extensions.cs:91 | a sample source's time is converted as `MillisecondsToBytes(milliseconds * 4)`, which scales the wrong way | a sample source with a 176400 bytes/s format: GetMilliseconds(44100) = 1000, but GetBytes(1000) = 705600, not 44100 | `MillisecondsToBytes(milliseconds) / 4`, the inverse of the `bytes * 4` at line 65 | medium; not executed | Extensions.SampleRoundTripFailsAsWritten | Extensions.IntendedSampleRoundTrip |

`GetBytes` and the `TimeSpan` overload `GetBytesAt` follow the code as
written. `GetBytesIntended` is the corrected operation.

## Left out

- GetMilliseconds: integers are unbounded. In C#, `bytes * 4` is a 64-bit product that silently wraps for `bytes` ≥ 2^61; this is not modelled.
- GetBytes: likewise, the 64-bit wrap of `milliseconds * 4` is not modelled.
- The concrete converters `SampleToPcm8`, `SampleToPcm16`, `SampleToPcm24` and `SampleToIeeeFloat32` are represented only by a tag. The factory `WaveToSampleBase.CreateConverter` is represented only by the source it wraps. Their code is not part of this model, and it does floating-point quantisation.
- `WaveFormat.BytesToMilliseconds` and `WaveFormat.MillisecondsToBytes` are arbitrary functions. Their code is not part of this model, and no arithmetic, monotonicity or round-trip fact is assumed of them.
- FromMilliseconds: `TimeSpan.FromMilliseconds` takes a double and throws OverflowException beyond about 9.2e14 ms. The model's TimeSpan is unbounded and exact.
- WholeMilliseconds: `TotalMilliseconds` is a double, so spans beyond 2^53 ticks are not represented exactly. The model truncates exact integers.
- CheckBuffer: C# arrays hold at most about 2^31 elements, so a larger `size` throws at allocation. Dafny arrays are unbounded.
- Add: the C# method is a lazy iterator over any enumerable. It re-enumerates `e` on every enumeration, and `e` may be infinite. The model takes a finite sequence and returns the whole result at once.
- A stream whose `WaveFormat` is null makes `GetMilliseconds` and `GetBytes` throw `NullReferenceException` at lines 61, 65, 87 and 91. The model's streams always carry a format, so this exception is not modelled.
- The format's conversions are total functions here and never throw. The "fails exactly when" statements of GetMilliseconds, GetBytes, GetTime, GetLength and GetPosition therefore hold only for formats whose conversions return normally.
- ToSampleSource: the factory `WaveToSampleBase.CreateConverter` may throw for a format it cannot handle. The model treats it as always succeeding, so "fails exactly when the source is null" covers only the null check at line 31.
- Add: with a null `e`, C# throws `NullReferenceException`, and only once the result is enumerated. The model's `e` is always a sequence, so this deferred exception is not modelled.
- `IsClosed` (lines 131-134) is not modelled. It only reads two `System.IO.Stream` flags. It returns true while the stream can still be read or written, which is the opposite of what its name says.
- `GetGuid` (lines 154-157) is not modelled: it reflects over runtime type metadata.
