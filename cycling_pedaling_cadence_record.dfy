/**
 * The public cycling pedaling cadence record: an interval record with a list
 * of samples, built through a builder.
 */
module CyclingPedalingCadenceRecord {
  import opened JavaLang

  /**
   * One measurement. It is an object because `equals` starts with
   * `Object.equals`, i.e. reference identity; `identityHashCode` is the value
   * `Object.hashCode` gives this object, chosen by the runtime.
   */
  class CyclingPedalingCadenceRecordSample {
    const revolutionsPerMinute: Double
    const time: Instant
    const identityHashCode: int32

    constructor (revolutionsPerMinute: Double, time: Instant, identityHashCode: int32)
      ensures this.revolutionsPerMinute == revolutionsPerMinute && this.time == time
      ensures this.identityHashCode == identityHashCode
    {
      this.revolutionsPerMinute := revolutionsPerMinute;
      this.time := time;
      this.identityHashCode := identityHashCode;
    }

    function GetRevolutionsPerMinute(): Double {
      revolutionsPerMinute
    }

    function GetTime(): Instant {
      time
    }

    /** `equals(o)`: `Object.equals` (the same object), then `==` on the cadence and equal times. */
    predicate Equals(o: CyclingPedalingCadenceRecordSample) {
      this == o &&
      DoubleEquals(GetRevolutionsPerMinute(), o.GetRevolutionsPerMinute()) && GetTime() == o.GetTime()
    }

    /** `hashCode`: `Objects.hash(super.hashCode(), revolutionsPerMinute, time)`. */
    function HashCode(instantHashCode: Instant -> int32): int32 {
      ObjectsHash([identityHashCode, DoubleHashCode(revolutionsPerMinute), instantHashCode(time)])
    }
  }

  /** The sample constructor: a null time throws a null-pointer exception. */
  method NewSample(revolutionsPerMinute: Double, time: Option<Instant>, identityHashCode: int32)
    returns (r: Result<CyclingPedalingCadenceRecordSample>)
    ensures time.None? <==> r == Thrown(NullPointerException)
    ensures r.Ok? <==> time.Some?
    ensures r.Ok? ==>
      && fresh(r.value)
      && r.value.GetRevolutionsPerMinute() == revolutionsPerMinute && r.value.GetTime() == time.value
  {
    if time.None? {
      return Thrown(NullPointerException);
    }
    var s := new CyclingPedalingCadenceRecordSample(revolutionsPerMinute, time.value, identityHashCode);
    r := Ok(s);
  }

  /** A sample equals another sample only if it is that very object, and then only if its cadence is not NaN. */
  lemma SampleEqualsIsIdentity(a: CyclingPedalingCadenceRecordSample, b: CyclingPedalingCadenceRecordSample)
    ensures a.Equals(b) <==> a == b && !IsNaN(a.revolutionsPerMinute)
  {
  }

  /** Two distinct samples holding the same values are not equal. */
  lemma SamplesWithEqualValuesAreNotEqual(a: CyclingPedalingCadenceRecordSample,
                                          b: CyclingPedalingCadenceRecordSample)
    requires a != b
    requires a.revolutionsPerMinute == b.revolutionsPerMinute && a.time == b.time
    ensures !a.Equals(b) && !b.Equals(a)
  {
  }

  /**
   * A `List<CyclingPedalingCadenceRecordSample>` object. The record keeps
   * the caller's list itself, so a change made through the caller's
   * reference is seen through `getSamples()`.
   */
  class SampleList {
    var elements: seq<CyclingPedalingCadenceRecordSample>

    constructor (elements: seq<CyclingPedalingCadenceRecordSample>)
      ensures this.elements == elements
    {
      this.elements := elements;
    }
  }

  /** `Objects.equals(x, y)` on two non-null samples: the same object, or `x.equals(y)`. */
  predicate ObjectsEquals(x: CyclingPedalingCadenceRecordSample, y: CyclingPedalingCadenceRecordSample) {
    x == y || x.Equals(y)
  }

  /**
   * `List.equals`: the same list object, or lists of the same length whose
   * elements are pairwise `Objects.equals`.
   */
  predicate SamplesEqual(s: SampleList, t: SampleList)
    reads s, t
  {
    s == t ||
    (|s.elements| == |t.elements| &&
     forall i :: 0 <= i < |s.elements| ==> ObjectsEquals(s.elements[i], t.elements[i]))
  }

  /** `List.hashCode`: the 31-multiplier fold of the elements' hash codes. */
  function SamplesHashCode(s: SampleList, instantHashCode: Instant -> int32): int32
    reads s
  {
    var elements := s.elements;
    ObjectsHash(seq(|elements|, i requires 0 <= i < |elements| => elements[i].HashCode(instantHashCode)))
  }

  /** Two sample lists are equal exactly when they hold the same sample objects in the same order. */
  lemma SamplesEqualIffSameElements(s: SampleList, t: SampleList)
    ensures SamplesEqual(s, t) <==> s.elements == t.elements
  {
    if SamplesEqual(s, t) && s != t {
      forall i | 0 <= i < |s.elements| ensures s.elements[i] == t.elements[i] {
        SampleEqualsIsIdentity(s.elements[i], t.elements[i]);
      }
    }
  }

  /** The fields held by the `IntervalRecord` superclass; the end time is nullable here, see `NewRecord`. */
  datatype IntervalHeader = IntervalHeader(
    metadata: Metadata,
    startTime: Instant,
    startZoneOffset: ZoneOffset,
    endTime: Option<Instant>,
    endZoneOffset: ZoneOffset)

  datatype CyclingPedalingCadenceRecord = CyclingPedalingCadenceRecord(header: IntervalHeader, samples: SampleList)
  {
    function GetSamples(): SampleList {
      samples
    }
  }

  /**
   * The private record constructor. It checks metadata, start time (twice),
   * both zone offsets and the sample list for null, but not the end time;
   * it keeps the given list object itself, not a copy.
   */
  function NewRecord(metadata: Option<Metadata>, startTime: Option<Instant>,
                     startZoneOffset: Option<ZoneOffset>, endTime: Option<Instant>,
                     endZoneOffset: Option<ZoneOffset>, samples: Option<SampleList>)
    : (r: Result<CyclingPedalingCadenceRecord>)
    ensures r.Ok? <==>
      metadata.Some? && startTime.Some? && startZoneOffset.Some? && endZoneOffset.Some? && samples.Some?
    ensures !r.Ok? ==> r == Thrown(NullPointerException)
    ensures r.Ok? ==>
      && r.value.header ==
         IntervalHeader(metadata.value, startTime.value, startZoneOffset.value, endTime, endZoneOffset.value)
      && r.value.GetSamples() == samples.value
  {
    if metadata.None? || startTime.None? || startZoneOffset.None? || startTime.None? ||
       endZoneOffset.None? || samples.None?
    then Thrown(NullPointerException)
    else Ok(CyclingPedalingCadenceRecord(
      IntervalHeader(metadata.value, startTime.value, startZoneOffset.value, endTime, endZoneOffset.value),
      samples.value))
  }

  /** A null end time gets through the record constructor's own checks. */
  lemma ConstructorLetsNullEndTimeThrough(metadata: Metadata, startTime: Instant, offset: ZoneOffset,
                                          samples: SampleList)
    ensures NewRecord(Some(metadata), Some(startTime), Some(offset), None, Some(offset), Some(samples)).Ok?
    ensures NewRecord(Some(metadata), Some(startTime), Some(offset), None, Some(offset), Some(samples))
              .value.header.endTime == None
  {
  }

  /** `equals`: the superclass's `equals` (`superEquals`) and equal sample lists. */
  predicate RecordEquals(a: CyclingPedalingCadenceRecord, b: CyclingPedalingCadenceRecord,
                         superEquals: (IntervalHeader, IntervalHeader) -> bool)
    reads a.samples, b.samples
  {
    superEquals(a.header, b.header) && SamplesEqual(a.GetSamples(), b.GetSamples())
  }

  /** `hashCode`: `Objects.hash(super.hashCode(), samples)`. */
  function RecordHashCode(r: CyclingPedalingCadenceRecord, superHashCode: IntervalHeader -> int32,
                          instantHashCode: Instant -> int32): int32
    reads r.samples
  {
    ObjectsHash([superHashCode(r.header), SamplesHashCode(r.GetSamples(), instantHashCode)])
  }

  /**
   * Two records are equal exactly when the superclass agrees and their
   * lists hold the very same sample objects in the same order; a NaN
   * cadence does not matter, since `Objects.equals` tests identity first.
   */
  lemma RecordEqualsIffSameSampleObjects(a: CyclingPedalingCadenceRecord, b: CyclingPedalingCadenceRecord,
                                         superEquals: (IntervalHeader, IntervalHeader) -> bool)
    ensures RecordEquals(a, b, superEquals) <==>
      superEquals(a.header, b.header) && a.samples.elements == b.samples.elements
  {
    SamplesEqualIffSameElements(a.samples, b.samples);
  }

  /**
   * With a reflexive superclass `equals`, a record equals itself and any
   * record sharing its header and list, even when a sample's cadence is NaN.
   */
  lemma RecordEqualsIsReflexive(r: CyclingPedalingCadenceRecord, o: CyclingPedalingCadenceRecord,
                                superEquals: (IntervalHeader, IntervalHeader) -> bool)
    requires forall h :: superEquals(h, h)
    requires o.header == r.header && o.samples == r.samples
    ensures RecordEquals(r, r, superEquals) && RecordEquals(r, o, superEquals)
  {
    assert superEquals(r.header, r.header);
  }

  /** Equal records hash alike, given a superclass whose `hashCode` agrees with its `equals`. */
  lemma EqualRecordsHaveEqualHashCodes(a: CyclingPedalingCadenceRecord, b: CyclingPedalingCadenceRecord,
                                       superEquals: (IntervalHeader, IntervalHeader) -> bool,
                                       superHashCode: IntervalHeader -> int32,
                                       instantHashCode: Instant -> int32)
    requires forall h1, h2 :: superEquals(h1, h2) ==> superHashCode(h1) == superHashCode(h2)
    requires RecordEquals(a, b, superEquals)
    ensures RecordHashCode(a, superHashCode, instantHashCode) == RecordHashCode(b, superHashCode, instantHashCode)
  {
    RecordEqualsIffSameSampleObjects(a, b, superEquals);
  }

  /** The builder: both zone offsets start at the system's current offset. */
  class Builder {
    const metadata: Metadata
    const startTime: Instant
    const endTime: Instant
    const samples: SampleList
    var startZoneOffset: ZoneOffset
    var endZoneOffset: ZoneOffset

    constructor (metadata: Metadata, startTime: Instant, endTime: Instant,
                 samples: SampleList, systemOffset: ZoneOffset)
      ensures this.metadata == metadata && this.startTime == startTime && this.endTime == endTime
      ensures this.samples == samples
      ensures startZoneOffset == systemOffset && endZoneOffset == systemOffset
    {
      this.metadata := metadata;
      this.startTime := startTime;
      this.endTime := endTime;
      this.samples := samples;
      startZoneOffset := systemOffset;
      endZoneOffset := systemOffset;
    }

    /** A null offset throws and changes nothing; otherwise it replaces the start offset only. */
    method SetStartZoneOffset(startZoneOffset: Option<ZoneOffset>) returns (r: Result<Builder>)
      modifies this`startZoneOffset
      ensures startZoneOffset.None? ==>
        r == Thrown(NullPointerException) && this.startZoneOffset == old(this.startZoneOffset)
      ensures startZoneOffset.Some? ==> r == Ok(this) && this.startZoneOffset == startZoneOffset.value
    {
      if startZoneOffset.None? {
        return Thrown(NullPointerException);
      }
      this.startZoneOffset := startZoneOffset.value;
      r := Ok(this);
    }

    /** A null offset throws and changes nothing; otherwise it replaces the end offset only. */
    method SetEndZoneOffset(endZoneOffset: Option<ZoneOffset>) returns (r: Result<Builder>)
      modifies this`endZoneOffset
      ensures endZoneOffset.None? ==>
        r == Thrown(NullPointerException) && this.endZoneOffset == old(this.endZoneOffset)
      ensures endZoneOffset.Some? ==> r == Ok(this) && this.endZoneOffset == endZoneOffset.value
    {
      if endZoneOffset.None? {
        return Thrown(NullPointerException);
      }
      this.endZoneOffset := endZoneOffset.value;
      r := Ok(this);
    }

    /** The record holds the builder's values, a non-null end time, and the builder's own list object. */
    method Build() returns (record: CyclingPedalingCadenceRecord)
      ensures record.header ==
        IntervalHeader(metadata, startTime, startZoneOffset, Some(endTime), endZoneOffset)
      ensures record.GetSamples() == samples
    {
      var r := NewRecord(Some(metadata), Some(startTime), Some(startZoneOffset), Some(endTime),
                         Some(endZoneOffset), Some(samples));
      assert r.Ok?;
      record := r.value;
    }
  }

  /** The builder's constructor: a null metadata, start time, end time or sample list throws. */
  method NewBuilder(metadata: Option<Metadata>, startTime: Option<Instant>, endTime: Option<Instant>,
                    samples: Option<SampleList>, systemOffset: ZoneOffset)
    returns (r: Result<Builder>)
    ensures r.Ok? <==> metadata.Some? && startTime.Some? && endTime.Some? && samples.Some?
    ensures !r.Ok? ==> r == Thrown(NullPointerException)
    ensures r.Ok? ==>
      && fresh(r.value)
      && r.value.metadata == metadata.value && r.value.startTime == startTime.value
      && r.value.endTime == endTime.value && r.value.samples == samples.value
      && r.value.startZoneOffset == systemOffset && r.value.endZoneOffset == systemOffset
  {
    if metadata.None? || startTime.None? || endTime.None? || samples.None? {
      return Thrown(NullPointerException);
    }
    var b := new Builder(metadata.value, startTime.value, endTime.value, samples.value, systemOffset);
    r := Ok(b);
  }
}
