/**
 * The response to an aggregation grouped by duration: a time window and a
 * map from aggregation type to result, re-keyed from the aggregation-type
 * ids the service sends.
 */
module AggregateRecordsGroupedByDurationResponse {
  import opened JavaLang

  /** An `AggregateResult`: the aggregated value. */
  datatype AggregateResult<T> = AggregateResult(result: T)
  {
    function GetResult(): T {
      result
    }
  }

  /** Every id of `ids` goes to a different key. */
  predicate InjectiveOn<K(==)>(ids: set<int>, mapper: int -> K) {
    forall i, j :: i in ids && j in ids && mapper(i) == mapper(j) ==> i == j
  }

  /**
   * `m` is `input` re-keyed through `mapper`: its keys are the images of
   * the input's ids, and each key holds the value of some id mapped to it
   * (which one, when ids collide, depends on the iteration order).
   */
  predicate RekeyedFrom<K(==), V(==)>(m: map<K, V>, input: map<int, V>, mapper: int -> K) {
    && (forall id :: id in input ==> mapper(id) in m)
    && (forall k :: k in m ==> exists id :: id in input && mapper(id) == k && m[k] == input[id])
  }

  /**
   * The constructor's `forEach` loop: puts `mapper(id) ↦ value` into a new
   * map for every entry of `input`, in an unspecified order. If no two ids
   * collide, every value lands under its own id's key and nothing is lost.
   */
  method Rekey<K(==), V(==)>(input: map<int, V>, mapper: int -> K) returns (m: map<K, V>)
    ensures RekeyedFrom(m, input, mapper)
    ensures InjectiveOn(input.Keys, mapper) ==>
      (forall id :: id in input ==> m[mapper(id)] == input[id]) && |m| == |input|
  {
    m := map[];
    var remaining := input.Keys;
    while remaining != {}
      invariant remaining <= input.Keys
      invariant forall id :: id in input && id !in remaining ==> mapper(id) in m
      invariant forall k :: k in m ==>
        exists id :: id in input && id !in remaining && mapper(id) == k && m[k] == input[id]
      invariant InjectiveOn(input.Keys, mapper) ==>
        && (forall id :: id in input && id !in remaining ==> m[mapper(id)] == input[id])
        && |m| + |remaining| == |input|
      decreases remaining
    {
      var id := AnyElement(remaining);
      if InjectiveOn(input.Keys, mapper) {
        assert mapper(id) !in m;
      }
      m := m[mapper(id) := input[id]];
      remaining := remaining - {id};
    }
  }

  /**
   * The response. `source` and `mapper` record, for the proofs only, the
   * id map and id-to-type mapping the result map was built from.
   */
  class AggregateRecordsGroupedByDurationResponse<K(==), T(==)> {
    const startTime: Instant
    const endTime: Instant
    const result: map<K, Option<AggregateResult<T>>>
    ghost const source: map<int, Option<AggregateResult<T>>>
    ghost const mapper: int -> K

    ghost predicate Valid() {
      RekeyedFrom(result, source, mapper)
    }

    /** `result` may hold null values, which `Option` stands for. */
    constructor (startTime: Instant, endTime: Instant, result: map<int, Option<AggregateResult<T>>>,
                 mapper: int -> K)
      ensures this.startTime == startTime && this.endTime == endTime
      ensures source == result && this.mapper == mapper && Valid()
    {
      this.startTime := startTime;
      this.endTime := endTime;
      var rekeyed := Rekey(result, mapper);
      this.result := rekeyed;
      source := result;
      this.mapper := mapper;
    }

    function GetStartTime(): Instant {
      startTime
    }

    function GetEndTime(): Instant {
      endTime
    }

    /**
     * `get(aggregationType)`: a null type throws; an absent type or a null
     * stored result gives null; otherwise the stored result's value.
     */
    function Get(aggregationType: Option<K>): (r: Result<Option<T>>)
      ensures aggregationType.None? <==> r == Thrown(NullPointerException)
    {
      if aggregationType.None? then Thrown(NullPointerException)
      else if aggregationType.value !in result || result[aggregationType.value].None? then Ok(None)
      else Ok(Some(result[aggregationType.value].value.GetResult()))
    }
  }

  /**
   * The public constructor: a null start time, end time or result map throws
   * a null-pointer exception. `mapper` stands for
   * `AggregationTypeIdMapper.getAggregationTypeFor`.
   */
  method NewResponse<K(==), T(==)>(startTime: Option<Instant>, endTime: Option<Instant>,
                           result: Option<map<int, Option<AggregateResult<T>>>>, mapper: int -> K)
    returns (r: Result<AggregateRecordsGroupedByDurationResponse<K, T>>)
    ensures r.Ok? <==> startTime.Some? && endTime.Some? && result.Some?
    ensures !r.Ok? ==> r == Thrown(NullPointerException)
    ensures r.Ok? ==>
      && fresh(r.value) && r.value.Valid()
      && r.value.GetStartTime() == startTime.value && r.value.GetEndTime() == endTime.value
      && r.value.source == result.value && r.value.mapper == mapper
  {
    if startTime.None? || endTime.None? || result.None? {
      return Thrown(NullPointerException);
    }
    var response := new AggregateRecordsGroupedByDurationResponse(startTime.value, endTime.value,
                                                                  result.value, mapper);
    r := Ok(response);
  }

  /** The value `get` gives for a result stored as `stored`. */
  function ResultValue<T>(stored: Option<AggregateResult<T>>): Option<T> {
    if stored.None? then None else Some(stored.value.GetResult())
  }

  /** `get` of a type no id maps to gives null. */
  lemma GetOfUnmappedTypeIsNull<K, T>(response: AggregateRecordsGroupedByDurationResponse<K, T>, k: K)
    requires response.Valid()
    requires forall id :: id in response.source ==> response.mapper(id) != k
    ensures response.Get(Some(k)) == Ok(None)
  {
    if k in response.result {
      assert false;
    }
  }

  /** `get` of a mapped type gives the value of one of the ids mapped to it. */
  lemma GetOfMappedTypeIsSomeInputResult<K, T>(response: AggregateRecordsGroupedByDurationResponse<K, T>,
                                                id: int)
    requires response.Valid() && id in response.source
    ensures exists j ::
      && j in response.source && response.mapper(j) == response.mapper(id)
      && response.Get(Some(response.mapper(id))) == Ok(ResultValue(response.source[j]))
  {
    var k := response.mapper(id);
    assert k in response.result;
    var j :| j in response.source && response.mapper(j) == k && response.result[k] == response.source[j];
    assert response.Get(Some(k)) == Ok(ResultValue(response.source[j]));
  }

  /** Without colliding ids, `get` of an id's type gives exactly that id's result value. */
  lemma GetOfInjectiveMappingIsInputResult<K, T>(response: AggregateRecordsGroupedByDurationResponse<K, T>,
                                                  id: int)
    requires response.Valid() && id in response.source
    requires InjectiveOn(response.source.Keys, response.mapper)
    ensures response.Get(Some(response.mapper(id))) == Ok(ResultValue(response.source[id]))
  {
    GetOfMappedTypeIsSomeInputResult(response, id);
  }
}
