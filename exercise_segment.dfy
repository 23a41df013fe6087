/**
 * A segment of an exercise session: a time interval, a segment type and a
 * non-negative repetition count, built through a builder.
 */
module ExerciseSegment {
  import opened JavaLang

  /** A `TimeInterval`: a start and an end time. */
  datatype TimeInterval = TimeInterval(startTime: Instant, endTime: Instant)

  datatype ExerciseSegment = ExerciseSegment(interval: TimeInterval, segmentType: int32,
                                             repetitionsCount: int32)
  {
    function GetStartTime(): Instant {
      interval.startTime
    }

    function GetEndTime(): Instant {
      interval.endTime
    }
  }

  /**
   * The private constructor: a null interval throws a null-pointer exception,
   * otherwise a negative repetition count throws `IllegalArgumentException`,
   * and otherwise the segment holds exactly the given values.
   */
  function NewExerciseSegment(interval: Option<TimeInterval>, segmentType: int32,
                              repetitionsCount: int32): (r: Result<ExerciseSegment>)
    ensures interval.None? ==> r == Thrown(NullPointerException)
    ensures interval.Some? ==> (r.Ok? <==> repetitionsCount >= 0)
    ensures interval.Some? && !r.Ok? ==> r.exception.IllegalArgumentException?
    ensures r.Ok? ==> r.value == ExerciseSegment(interval.value, segmentType, repetitionsCount)
  {
    if interval.None? then Thrown(NullPointerException)
    else if repetitionsCount < 0 then
      Thrown(IllegalArgumentException("Repetitions count must be non-negative."))
    else Ok(ExerciseSegment(interval.value, segmentType, repetitionsCount))
  }

  /** `equals`: the same segment type and repetition count; the interval is not compared. */
  predicate Equals(a: ExerciseSegment, b: ExerciseSegment) {
    a.segmentType == b.segmentType && a.repetitionsCount == b.repetitionsCount
  }

  /** `hashCode`: `Objects.hash(segmentType, repetitionsCount)`. */
  function HashCode(s: ExerciseSegment): int32 {
    ObjectsHash([s.segmentType, s.repetitionsCount])
  }

  lemma EqualsIsAnEquivalence(a: ExerciseSegment, b: ExerciseSegment, c: ExerciseSegment)
    ensures Equals(a, a)
    ensures Equals(a, b) ==> Equals(b, a)
    ensures Equals(a, b) && Equals(b, c) ==> Equals(a, c)
  {
  }

  /** Segments over different intervals are equal when type and count agree. */
  lemma EqualsIgnoresInterval(s: ExerciseSegment, other: TimeInterval)
    ensures Equals(s, s.(interval := other))
    ensures HashCode(s) == HashCode(s.(interval := other))
  {
  }

  lemma EqualSegmentsHaveEqualHashCodes(a: ExerciseSegment, b: ExerciseSegment)
    requires Equals(a, b)
    ensures HashCode(a) == HashCode(b)
  {
  }

  /** The builder: a fixed interval and type, and a repetition count that starts at 0. */
  class Builder {
    const interval: TimeInterval
    const segmentType: int32
    var repetitionsCount: int32

    /** The builder never holds a negative count. */
    predicate Valid()
      reads this
    {
      repetitionsCount >= 0
    }

    constructor (interval: TimeInterval, segmentType: int32)
      ensures this.interval == interval && this.segmentType == segmentType
      ensures repetitionsCount == 0 && Valid()
    {
      this.interval := interval;
      this.segmentType := segmentType;
      repetitionsCount := 0;
    }

    /**
     * A negative count throws `IllegalArgumentException` and leaves the
     * builder as it was; any other count is stored and the builder returned.
     */
    method SetRepetitionsCount(repetitionsCount: int32) returns (r: Result<Builder>)
      requires Valid()
      modifies this
      ensures Valid()
      ensures repetitionsCount < 0 ==>
        && r == Thrown(IllegalArgumentException("Number of repetitions must be non negative."))
        && this.repetitionsCount == old(this.repetitionsCount)
      ensures repetitionsCount >= 0 ==> r == Ok(this) && this.repetitionsCount == repetitionsCount
    {
      if repetitionsCount < 0 {
        return Thrown(IllegalArgumentException("Number of repetitions must be non negative."));
      }
      this.repetitionsCount := repetitionsCount;
      r := Ok(this);
    }

    /** Builds the segment; a valid builder never makes the constructor throw. */
    method Build() returns (s: ExerciseSegment)
      requires Valid()
      ensures s.interval == interval && s.segmentType == segmentType
      ensures s.repetitionsCount == repetitionsCount && s.repetitionsCount >= 0
      ensures s.GetStartTime() == interval.startTime && s.GetEndTime() == interval.endTime
    {
      var r := NewExerciseSegment(Some(interval), segmentType, repetitionsCount);
      assert r.Ok?;
      s := r.value;
    }
  }

  /**
   * The builder's constructor: a null start or end time throws a
   * null-pointer exception; otherwise it builds the `TimeInterval`
   * (`newTimeInterval` stands for that constructor and whatever it throws).
   */
  method NewBuilder(startTime: Option<Instant>, endTime: Option<Instant>, segmentType: int32,
                    newTimeInterval: (Instant, Instant) -> Result<TimeInterval>)
    returns (r: Result<Builder>)
    ensures startTime.None? || endTime.None? ==> r == Thrown(NullPointerException)
    ensures startTime.Some? && endTime.Some? && newTimeInterval(startTime.value, endTime.value).Thrown? ==>
      r == Thrown(newTimeInterval(startTime.value, endTime.value).exception)
    ensures r.Ok? <==> startTime.Some? && endTime.Some? && newTimeInterval(startTime.value, endTime.value).Ok?
    ensures r.Ok? ==>
      && fresh(r.value) && r.value.Valid()
      && r.value.interval == newTimeInterval(startTime.value, endTime.value).value
      && r.value.segmentType == segmentType && r.value.repetitionsCount == 0
  {
    if startTime.None? || endTime.None? {
      return Thrown(NullPointerException);
    }
    var interval := newTimeInterval(startTime.value, endTime.value);
    if interval.Thrown? {
      return Thrown(interval.exception);
    }
    var b := new Builder(interval.value, segmentType);
    r := Ok(b);
  }
}
