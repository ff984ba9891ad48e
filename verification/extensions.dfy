/*******************************************************************************
 *  Model of CSCore's static helper class `Extensions`: sample/wave adapter
 *  selection, byte/time conversion of audio streams, the scratch-buffer
 *  guard, lazy append, MP3 channel counts and 16-bit word helpers.
 *******************************************************************************/

module Extensions {

  /** A C# reference that may be null. */
  datatype Option<+T> = None | Some(value: T)

  /** The exceptions the helpers raise; `paramName` is the name the source passes. */
  datatype Exception =
    | ArgumentNull(paramName: string)
    | ArgumentOutOfRange(paramName: string)
    | NotSupported
    | NullReference
    | Overflow

  /** A call either returns a value or throws. */
  datatype Result<+T> = Ok(value: T) | Err(error: Exception)

  /** Integer division that truncates toward zero, as C# `/` and the
      double-to-long cast do (Dafny's own `/` is Euclidean). */
  function TruncDiv(a: int, d: int): (q: int)
    requires d > 0
    ensures a >= 0 ==> 0 <= q * d <= a < q * d + d
    ensures a < 0 ==> a <= q * d <= 0 && q * d < a + d
  {
    if a >= 0 then
      DivisionBounds(a, d);
      a / d
    else
      DivisionBounds(-a, d);
      -((-a) / d)
  }

  /** Euclidean division of a non-negative number brackets it between two
      consecutive multiples of the divisor. */
  lemma DivisionBounds(a: int, d: int)
    requires a >= 0 && d > 0
    ensures 0 <= (a / d) * d <= a < (a / d) * d + d
    ensures (-(a / d)) * d == -((a / d) * d)
  {
  }

  // ---------------------------------------------------------------------------
  // Sample -> wave and wave -> sample adapters
  // ---------------------------------------------------------------------------

  /** The four sample-to-wave converters, one per supported output bit depth. */
  datatype WaveConverterKind = SampleToPcm8 | SampleToPcm16 | SampleToPcm24 | SampleToIeeeFloat32

  /** Bits per sample of the wave data a converter produces. */
  function OutputBits(kind: WaveConverterKind): nat
  {
    match kind
    case SampleToPcm8 => 8
    case SampleToPcm16 => 16
    case SampleToPcm24 => 24
    case SampleToIeeeFloat32 => 32
  }

  /** A wave source that converts the samples of `source` with the converter `kind`. */
  datatype WaveConverter<S> = WaveConverter(kind: WaveConverterKind, source: S)

  /** `ToWaveSource(sampleSource, bits)`: a null source fails first, whatever
      `bits` is; then bits 8, 16, 24 and 32 each select their converter, which
      wraps the given source; every other bit depth is out of range. */
  function ToWaveSource<S>(sampleSource: Option<S>, bits: int): (r: Result<WaveConverter<S>>)
    ensures sampleSource.None? ==> r.Err? && r.error == ArgumentNull("sampleSource")
    ensures sampleSource.Some? ==> (r.Ok? <==> bits in {8, 16, 24, 32})
    ensures sampleSource.Some? && r.Err? ==> r.error == ArgumentOutOfRange("bits")
    ensures r.Ok? ==> r.value.source == sampleSource.value && OutputBits(r.value.kind) == bits
  {
    if sampleSource.None? then Err(ArgumentNull("sampleSource"))
    else if bits == 8 then Ok(WaveConverter(SampleToPcm8, sampleSource.value))
    else if bits == 16 then Ok(WaveConverter(SampleToPcm16, sampleSource.value))
    else if bits == 24 then Ok(WaveConverter(SampleToPcm24, sampleSource.value))
    else if bits == 32 then Ok(WaveConverter(SampleToIeeeFloat32, sampleSource.value))
    else Err(ArgumentOutOfRange("bits"))
  }

  /** Exactly one converter exists per supported bit depth: the depth a
      converter produces identifies it, so the selection cannot be ambiguous. */
  lemma OneConverterPerBitDepth<S>(source: S, bits: int, kind: WaveConverterKind)
    requires OutputBits(kind) == bits
    ensures ToWaveSource(Some(source), bits) == Ok(WaveConverter(kind, source))
  {
  }

  /** The sample source that `WaveToSampleBase.CreateConverter` builds for a
      wave source; which converter it picks from the source's format is not
      part of this model. */
  datatype SampleConverter<S> = FactoryConverter(source: S)

  /** `ToSampleSource(waveSource)`: a null source fails; any other is handed to
      the converter factory. */
  function ToSampleSource<S>(waveSource: Option<S>): (r: Result<SampleConverter<S>>)
    ensures r.Err? <==> waveSource.None?
    ensures r.Err? ==> r.error == ArgumentNull("waveSource")
    ensures r.Ok? ==> r.value.source == waveSource.value
  {
    if waveSource.None? then Err(ArgumentNull("waveSource"))
    else Ok(FactoryConverter(waveSource.value))
  }

  // ---------------------------------------------------------------------------
  // Byte offsets and times
  // ---------------------------------------------------------------------------

  /** A WaveFormat seen only through its two conversions; their arithmetic is
      not part of this model, so any pair of functions may stand here. */
  datatype WaveFormat = WaveFormat(bytesToMilliseconds: int -> int, millisecondsToBytes: int -> int)

  /** An IWaveStream. The two flags say whether the object implements
      IWaveSource and ISampleSource; a C# object may implement both, or neither. */
  datatype WaveStream = WaveStream(
    isWaveSource: bool,
    isSampleSource: bool,
    waveFormat: WaveFormat,
    length: int,
    position: int)

  /** A sample source counts in 32-bit float samples: 4 bytes per unit. */
  const BytesPerSampleUnit := 4

  /** The same stream seen as a plain wave source (counting in bytes). */
  function AsWaveSource(s: WaveStream): (w: WaveStream)
    ensures w.isWaveSource && !w.isSampleSource && w.waveFormat == s.waveFormat
  {
    s.(isWaveSource := true, isSampleSource := false)
  }

  /** `GetMilliseconds(source, bytes)`: null source, then negative offset fail
      before the stream's kind is looked at; a wave source converts the byte
      count directly, a source that is only a sample source converts four bytes
      per unit, and any other stream is not supported. */
  function GetMilliseconds(source: Option<WaveStream>, bytes: int): (r: Result<int>)
    ensures source.None? ==> r == Err(ArgumentNull("source"))
    ensures source.Some? && bytes < 0 ==> r == Err(ArgumentOutOfRange("bytes"))
    ensures r.Err? <==>
      source.None? || bytes < 0 || !(source.value.isWaveSource || source.value.isSampleSource)
    ensures source.Some? && bytes >= 0 && !source.value.isWaveSource && !source.value.isSampleSource
      ==> r == Err(NotSupported)
    ensures r.Ok? && source.value.isWaveSource
      ==> r.value == source.value.waveFormat.bytesToMilliseconds(bytes)
    ensures r.Ok? && !source.value.isWaveSource
      ==> r.value == source.value.waveFormat.bytesToMilliseconds(bytes * BytesPerSampleUnit)
  {
    if source.None? then Err(ArgumentNull("source"))
    else if bytes < 0 then Err(ArgumentOutOfRange("bytes"))
    else if source.value.isWaveSource then Ok(source.value.waveFormat.bytesToMilliseconds(bytes))
    else if source.value.isSampleSource then
      Ok(source.value.waveFormat.bytesToMilliseconds(bytes * BytesPerSampleUnit))
    else Err(NotSupported)
  }

  /** `GetBytes(source, milliseconds)`, as written: the same guards in the same
      order; a wave source converts the time directly, a source that is only a
      sample source converts four times the time. */
  function GetBytes(source: Option<WaveStream>, milliseconds: int): (r: Result<int>)
    ensures source.None? ==> r == Err(ArgumentNull("source"))
    ensures source.Some? && milliseconds < 0 ==> r == Err(ArgumentOutOfRange("milliseconds"))
    ensures r.Err? <==>
      source.None? || milliseconds < 0 || !(source.value.isWaveSource || source.value.isSampleSource)
    ensures source.Some? && milliseconds >= 0 && !source.value.isWaveSource && !source.value.isSampleSource
      ==> r == Err(NotSupported)
    ensures r.Ok? && source.value.isWaveSource
      ==> r.value == source.value.waveFormat.millisecondsToBytes(milliseconds)
    ensures r.Ok? && !source.value.isWaveSource
      ==> r.value == source.value.waveFormat.millisecondsToBytes(milliseconds * BytesPerSampleUnit)
  {
    if source.None? then Err(ArgumentNull("source"))
    else if milliseconds < 0 then Err(ArgumentOutOfRange("milliseconds"))
    else if source.value.isWaveSource then Ok(source.value.waveFormat.millisecondsToBytes(milliseconds))
    else if source.value.isSampleSource then
      Ok(source.value.waveFormat.millisecondsToBytes(milliseconds * BytesPerSampleUnit))
    else Err(NotSupported)
  }

  /** A stream that implements both interfaces is treated as a wave source. */
  lemma WaveTestTakesPriority(s: WaveStream, n: int)
    requires s.isWaveSource
    ensures GetMilliseconds(Some(s), n) == GetMilliseconds(Some(AsWaveSource(s)), n)
    ensures GetBytes(Some(s), n) == GetBytes(Some(AsWaveSource(s)), n)
  {
  }

  /** A sample source at `n` units reads like the same stream as a wave source
      at `4 * n` bytes; GetBytes scales its argument the same way. */
  lemma SampleUnitsAreFourBytes(s: WaveStream, n: int)
    requires s.isSampleSource && !s.isWaveSource
    ensures GetMilliseconds(Some(s), n) == GetMilliseconds(Some(AsWaveSource(s)), n * BytesPerSampleUnit)
    ensures GetBytes(Some(s), n) == GetBytes(Some(AsWaveSource(s)), n * BytesPerSampleUnit)
  {
  }

  /** The guards never consult the format: a call that fails fails the same way
      whatever format the stream carries. */
  lemma FailuresDoNotConsultFormat(s: WaveStream, f: WaveFormat, n: int)
    ensures GetMilliseconds(Some(s), n).Err? ==>
      GetMilliseconds(Some(s.(waveFormat := f)), n) == GetMilliseconds(Some(s), n)
    ensures GetBytes(Some(s), n).Err? ==>
      GetBytes(Some(s.(waveFormat := f)), n) == GetBytes(Some(s), n)
  {
  }

  /** A System.TimeSpan, as a whole number of 100-nanosecond ticks. */
  datatype TimeSpan = TimeSpan(ticks: int)

  const TicksPerMillisecond := 10000

  /** `TimeSpan.FromMilliseconds` on a whole number of milliseconds. */
  function FromMilliseconds(ms: int): (t: TimeSpan)
    ensures t.ticks == ms * TicksPerMillisecond
    ensures WholeMilliseconds(t) == ms
  {
    TimeSpan(ms * TicksPerMillisecond)
  }

  /** `(long)timespan.TotalMilliseconds`: the cast truncates toward zero, so a
      span less than a millisecond before zero reads as 0. */
  function WholeMilliseconds(t: TimeSpan): (ms: int)
    ensures (ms == 0) <==> -TicksPerMillisecond < t.ticks < TicksPerMillisecond
    ensures (ms < 0) <==> t.ticks <= -TicksPerMillisecond
    ensures t.ticks >= 0 ==>
      ms * TicksPerMillisecond <= t.ticks < ms * TicksPerMillisecond + TicksPerMillisecond
    ensures t.ticks < 0 ==>
      t.ticks <= ms * TicksPerMillisecond <= 0 && ms * TicksPerMillisecond < t.ticks + TicksPerMillisecond
  {
    TruncDiv(t.ticks, TicksPerMillisecond)
  }

  /** `GetTime(source, bytes)`: GetMilliseconds as a TimeSpan; its failures
      pass through unchanged. */
  function GetTime(source: Option<WaveStream>, bytes: int): (r: Result<TimeSpan>)
    ensures r.Ok? <==> GetMilliseconds(source, bytes).Ok?
    ensures r.Err? ==> r.error == GetMilliseconds(source, bytes).error
    ensures r.Ok? ==> r.value == FromMilliseconds(GetMilliseconds(source, bytes).value)
    ensures r.Ok? ==> WholeMilliseconds(r.value) == GetMilliseconds(source, bytes).value
  {
    var ms := GetMilliseconds(source, bytes);
    if ms.Err? then Err(ms.error) else Ok(FromMilliseconds(ms.value))
  }

  /** `GetLength(source)`: the time of the stream's length. The length is read
      before any guard runs, so a null source raises NullReference, not
      ArgumentNull. */
  function GetLength(source: Option<WaveStream>): (r: Result<TimeSpan>)
    ensures source.None? ==> r == Err(NullReference)
    ensures source.Some? ==> (r.Ok? <==> GetMilliseconds(source, source.value.length).Ok?)
    ensures source.Some? && r.Ok? ==>
      WholeMilliseconds(r.value) == GetMilliseconds(source, source.value.length).value
    ensures source.Some? && r.Ok? ==>
      r.value == FromMilliseconds(GetMilliseconds(source, source.value.length).value)
    ensures source.Some? && r.Err? ==> r.error == GetMilliseconds(source, source.value.length).error
    ensures r.Err? ==> r.error != ArgumentNull("source")
  {
    if source.None? then Err(NullReference) else GetTime(source, source.value.length)
  }

  /** `GetPosition(source)`: the time of the stream's position, with the same
      null behaviour as GetLength. */
  function GetPosition(source: Option<WaveStream>): (r: Result<TimeSpan>)
    ensures source.None? ==> r == Err(NullReference)
    ensures source.Some? ==> (r.Ok? <==> GetMilliseconds(source, source.value.position).Ok?)
    ensures source.Some? && r.Ok? ==>
      WholeMilliseconds(r.value) == GetMilliseconds(source, source.value.position).value
    ensures source.Some? && r.Ok? ==>
      r.value == FromMilliseconds(GetMilliseconds(source, source.value.position).value)
    ensures source.Some? && r.Err? ==> r.error == GetMilliseconds(source, source.value.position).error
    ensures r.Err? ==> r.error != ArgumentNull("source")
  {
    if source.None? then Err(NullReference) else GetTime(source, source.value.position)
  }

  /** `GetBytes(source, timespan)`: GetBytes of the span's whole milliseconds.
      Only spans of at least one millisecond before zero are out of range. */
  function GetBytesAt(source: Option<WaveStream>, timespan: TimeSpan): (r: Result<int>)
    ensures source.Some? ==>
      (r == Err(ArgumentOutOfRange("milliseconds")) <==> timespan.ticks <= -TicksPerMillisecond)
    ensures -TicksPerMillisecond < timespan.ticks < TicksPerMillisecond ==> r == GetBytes(source, 0)
    ensures r == GetBytes(source, WholeMilliseconds(timespan))
  {
    GetBytes(source, WholeMilliseconds(timespan))
  }

  /** The TimeSpan overload agrees with the millisecond overload on every
      whole-millisecond span. */
  lemma GetBytesAtWholeMilliseconds(source: Option<WaveStream>, ms: int)
    ensures GetBytesAt(source, FromMilliseconds(ms)) == GetBytes(source, ms)
  {
  }

  /** GetBytes as evidently intended for a sample source: convert the time to
      bytes, then count four bytes per sample unit (C# `/` truncates). */
  function GetBytesIntended(source: Option<WaveStream>, milliseconds: int): (r: Result<int>)
    ensures r.Err? <==> GetBytes(source, milliseconds).Err?
    ensures r.Err? ==> r == GetBytes(source, milliseconds)
    ensures r.Ok? && source.value.isWaveSource ==> r == GetBytes(source, milliseconds)
    ensures r.Ok? && !source.value.isWaveSource ==>
      r.value == TruncDiv(GetBytes(Some(AsWaveSource(source.value)), milliseconds).value, BytesPerSampleUnit)
  {
    if source.None? then Err(ArgumentNull("source"))
    else if milliseconds < 0 then Err(ArgumentOutOfRange("milliseconds"))
    else if source.value.isWaveSource then Ok(source.value.waveFormat.millisecondsToBytes(milliseconds))
    else if source.value.isSampleSource then
      Ok(TruncDiv(source.value.waveFormat.millisecondsToBytes(milliseconds), BytesPerSampleUnit))
    else Err(NotSupported)
  }

  /** With the intended GetBytes, a sample source's position survives the trip
      units -> milliseconds -> units whenever the format itself maps the
      corresponding byte count to a time and back exactly. */
  lemma IntendedSampleRoundTrip(s: WaveStream, units: nat)
    requires s.isSampleSource && !s.isWaveSource
    requires s.waveFormat.bytesToMilliseconds(units * BytesPerSampleUnit) >= 0
    requires s.waveFormat.millisecondsToBytes(s.waveFormat.bytesToMilliseconds(units * BytesPerSampleUnit))
             == units * BytesPerSampleUnit
    ensures GetMilliseconds(Some(s), units).Ok?
    ensures GetBytesIntended(Some(s), GetMilliseconds(Some(s), units).value) == Ok(units)
  {
  }

  /** A sample source whose format has 176400 bytes per second (one channel of
      32-bit float samples at 44.1 kHz), with conversions exact on whole
      milliseconds. */
  function CdQualitySampleSource(): (s: WaveStream)
    ensures s.isSampleSource && !s.isWaveSource
  {
    WaveStream(false, true, WaveFormat(b => b * 1000 / 176400, m => m * 176400 / 1000), 0, 0)
  }

  /** As written, GetBytes does not invert GetMilliseconds on a sample source:
      one second of samples (44100 units) is 1000 ms, but 1000 ms comes back as
      705600, sixteen times too many; the intended version gives 44100. */
  lemma SampleRoundTripFailsAsWritten()
    ensures GetMilliseconds(Some(CdQualitySampleSource()), 44100) == Ok(1000)
    ensures GetBytes(Some(CdQualitySampleSource()), 1000) == Ok(705600)
    ensures GetBytesIntended(Some(CdQualitySampleSource()), 1000) == Ok(44100)
  {
  }

  // ---------------------------------------------------------------------------
  // MP3 channel mode
  // ---------------------------------------------------------------------------

  /** The MP3 channel modes; `Other` is any value of the enum that names none
      of the four modes. */
  datatype MP3ChannelMode = Stereo | JointStereo | DualChannel | Mono | Other

  /** `ToShort(channel)`: the number of audio channels of a mode, 0 when the
      value is not a known mode. */
  function ToShort(channel: MP3ChannelMode): (r: int)
    ensures r in {0, 1, 2}
    ensures r == 1 <==> channel == Mono
    ensures r == 2 <==> channel in {Stereo, JointStereo, DualChannel}
    ensures r == 0 <==> channel.Other?
  {
    if channel == Mono then 1
    else if channel == Stereo then 2
    else if channel == JointStereo then 2
    else if channel == DualChannel then 2
    else 0
  }

  // ---------------------------------------------------------------------------
  // Scratch buffers
  // ---------------------------------------------------------------------------

  /** The condition under which `CheckBuffer` allocates instead of reusing. */
  predicate NeedsNewBuffer<T>(inst: array?<T>, size: int, exactSize: bool)
  {
    inst == null || (!exactSize && inst.Length < size) || (exactSize && inst.Length != size)
  }

  /** `CheckBuffer(inst, size, exactSize)`: hands back `inst` itself when it is
      long enough (exactly `size` long when `exactSize`), otherwise a new array
      of exactly `size` elements, each `zero` (C#'s `default(T)`). Allocating a
      negative size raises an overflow. */
  method CheckBuffer<T>(inst: array?<T>, size: int, exactSize: bool, zero: T) returns (r: Result<array<T>>)
    ensures !NeedsNewBuffer(inst, size, exactSize) ==> r.Ok? && r.value == inst
    ensures NeedsNewBuffer(inst, size, exactSize) && size < 0 ==> r == Err(Overflow)
    ensures NeedsNewBuffer(inst, size, exactSize) && size >= 0 ==>
      r.Ok? && fresh(r.value) && r.value.Length == size &&
      forall i :: 0 <= i < size ==> r.value[i] == zero
    ensures r.Ok? && !exactSize ==> r.value.Length >= size
    ensures r.Ok? && exactSize ==> r.value.Length == size
  {
    if NeedsNewBuffer(inst, size, exactSize) {
      if size < 0 {
        return Err(Overflow);
      }
      var buffer := new T[size](_ => zero);
      return Ok(buffer);
    }
    return Ok(inst);
  }

  // ---------------------------------------------------------------------------
  // Lazy append
  // ---------------------------------------------------------------------------

  /** `Add(e, value)`: enumerates the elements of `e` one by one, then `value`. */
  function Add<T>(e: seq<T>, value: T): (r: seq<T>)
    ensures |r| == |e| + 1
    ensures r[..|e|] == e
    ensures r[|e|] == value
  {
    if e == [] then [value] else [e[0]] + Add(e[1..], value)
  }

  // ---------------------------------------------------------------------------
  // 16-bit words of a 32-bit integer
  // ---------------------------------------------------------------------------

  /** `LowWord(number)`: the low 16 bits, with the high half cleared. */
  function LowWord(number: bv32): (r: bv32)
    ensures r < 0x1_0000
    ensures (number ^ r) & 0xFFFF == 0
  {
    number & 0x0000_FFFF
  }

  /** `HighWord(number)`: the high 16 bits left in place (masked, not shifted
      down), with the low half cleared. */
  function HighWord(number: bv32): (r: bv32)
    ensures r & 0xFFFF == 0
    ensures (number ^ r) & 0xFFFF_0000 == 0
  {
    number & 0xFFFF_0000
  }

  /** The two halves put together give the number back, by `|` and by `+`. */
  lemma WordsRecombine(number: bv32)
    ensures HighWord(number) | LowWord(number) == number
    ensures HighWord(number) + LowWord(number) == number
  {
  }

  /** `LowWord(number, newValue)`: keeps the high half of `number` and puts the
      low 16 bits of `newValue` in the low half; the addition never carries. */
  function WithLowWord(number: bv32, newValue: bv32): (r: bv32)
    ensures r == HighWord(number) | LowWord(newValue)
    ensures HighWord(r) == HighWord(number)
    ensures LowWord(r) == LowWord(newValue)
  {
    (number & 0xFFFF_0000) + (newValue & 0x0000_FFFF)
  }

  /** `HighWord(number, newValue)`: keeps the low half of `number` and puts the
      low 16 bits of `newValue` in the high half; the addition never carries. */
  function WithHighWord(number: bv32, newValue: bv32): (r: bv32)
    ensures r == (newValue << 16) | LowWord(number)
    ensures LowWord(r) == LowWord(number)
    ensures r >> 16 == LowWord(newValue)
  {
    (number & 0x0000_FFFF) + (newValue << 16)
  }
}
