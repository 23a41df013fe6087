/**
 * The row codec of the cycling pedaling cadence series record: one row per
 * sample in the series table, all rows of a record sharing its UUID.
 */
module CyclingPedalingCadenceRecordHelper {
  import opened JavaLang
  import opened Storage

  /** Only the initial capacity of the column list, not its length. */
  const NumLocalColumns := 1
  const TableName := "CyclingPedalingCadenceRecordTable"
  const SeriesTableName := "cycling_pedaling_cadence_record_table"
  const RevolutionsPerMinuteColumnName := "revolutions_per_minute"
  const EpochMillisColumnName := "epoch_millis"

  function GetMainTableName(): string {
    TableName
  }

  function GetSeriesDataTableName(): string {
    SeriesTableName
  }

  /** The series table's own columns, in declaration order. */
  function GetSeriesRecordColumnInfo(): seq<ColumnInfo> {
    [ColumnInfo(EpochMillisColumnName, Integer), ColumnInfo(RevolutionsPerMinuteColumnName, Real)]
  }

  lemma ColumnInfoIsEpochThenCadence()
    ensures |GetSeriesRecordColumnInfo()| == 2
    ensures GetSeriesRecordColumnInfo()[0] == ColumnInfo("epoch_millis", Integer)
    ensures GetSeriesRecordColumnInfo()[1] == ColumnInfo("revolutions_per_minute", Real)
    ensures GetMainTableName() != GetSeriesDataTableName()
  {
  }

  /** A sample of the internal cadence record: revolutions per minute at an epoch millisecond. */
  datatype CadenceSample = CadenceSample(revolutionsPerMinute: Double, epochMillis: int)

  /** The internal cadence record, reduced to the sample list this helper fills. */
  class CyclingPedalingCadenceRecordInternal {
    var samples: seq<CadenceSample>

    constructor ()
      ensures samples == []
    {
      samples := [];
    }

    method SetSamples(samples: seq<CadenceSample>)
      modifies this
      ensures this.samples == samples
    {
      this.samples := samples;
    }
  }

  /** A row of the series table as a query returns it: the UUID and both sample columns. */
  predicate IsSeriesRow(row: Row) {
    && HasUuid(row)
    && HasColumn(row, EpochMillisColumnName, Integer)
    && HasColumn(row, RevolutionsPerMinuteColumnName, Real)
  }

  predicate AreSeriesRows(rows: seq<Row>) {
    forall i :: 0 <= i < |rows| ==> IsSeriesRow(rows[i])
  }

  /** The rows from `start` on are series rows: what a read starting at `start` may reach. */
  predicate AreSeriesRowsFrom(rows: seq<Row>, start: nat) {
    forall i :: start <= i < |rows| ==> IsSeriesRow(rows[i])
  }

  /** The sample one series row stands for. */
  function DecodeSample(row: Row): CadenceSample
    requires IsSeriesRow(row)
  {
    CadenceSample(row[RevolutionsPerMinuteColumnName].double, row[EpochMillisColumnName].long)
  }

  /** The samples a run of series rows stands for, one per row, in row order. */
  function DecodeSamples(rows: seq<Row>): seq<CadenceSample>
    requires AreSeriesRows(rows)
  {
    seq(|rows|, i requires 0 <= i < |rows| => DecodeSample(rows[i]))
  }

  /** Decoding one more row of a run appends that row's sample. */
  lemma DecodeSamplesExtend(rows: seq<Row>, start: nat, end: nat)
    requires start <= end < |rows| && AreSeriesRowsFrom(rows, start)
    ensures AreSeriesRows(rows[start..end]) && AreSeriesRows(rows[start..end + 1])
    ensures DecodeSamples(rows[start..end + 1]) == DecodeSamples(rows[start..end]) + [DecodeSample(rows[end])]
  {
  }

  /** The column values `populateSampleTo` leaves after writing `sample` over `values`. */
  function EncodeSample(values: Row, sample: CadenceSample): Row {
    values[RevolutionsPerMinuteColumnName := RealValue(sample.revolutionsPerMinute)]
          [EpochMillisColumnName := IntegerValue(sample.epochMillis)]
  }

  /**
   * Reads the series record starting at the cursor's row: every contiguous
   * row with that row's UUID becomes one sample, and the cursor is left on
   * the group's last row so that the caller's next `moveToNext` reaches the
   * next group or the end.
   */
  method PopulateSpecificValues(cursor: Cursor, record: CyclingPedalingCadenceRecordInternal)
    requires cursor.OnRow() && AreSeriesRowsFrom(cursor.rows, cursor.position)
    modifies cursor, record
    ensures var start := old(cursor.position);
      var n := GroupLength(cursor.rows, start);
      && cursor.position == start + n - 1
      && record.samples == DecodeSamples(cursor.rows[start..start + n])
  {
    var samples: seq<CadenceSample> := [];
    var uuid := cursor.GetString(UuidColumnName);
    ghost var start := cursor.position;
    var more := true;
    while more
      invariant start <= cursor.position <= |cursor.rows|
      invariant cursor.position == start + |samples|
      invariant uuid == Uuid(cursor.rows[start])
      invariant more ==> cursor.OnRow() && Uuid(cursor.rows[cursor.position]) == uuid
      invariant !more ==>
        && |samples| >= 1
        && (cursor.position == |cursor.rows| || Uuid(cursor.rows[cursor.position]) != uuid)
      invariant forall i :: start <= i < cursor.position ==> Uuid(cursor.rows[i]) == uuid
      invariant samples == DecodeSamples(cursor.rows[start..cursor.position])
      decreases |cursor.rows| - cursor.position
    {
      DecodeSamplesExtend(cursor.rows, start, cursor.position);
      samples := samples + [CadenceSample(cursor.GetDouble(RevolutionsPerMinuteColumnName),
                                          cursor.GetLong(EpochMillisColumnName))];
      var moved := cursor.MoveToNext();
      more := moved && uuid == cursor.GetString(UuidColumnName);
    }
    GroupLengthIsThatOfAnyMaximalRun(cursor.rows, start, |samples|);
    var _ := cursor.MoveToPrevious();
    record.SetSamples(samples);
  }

  /** Writes one sample's columns into the row being built. */
  method PopulateSampleTo(contentValues: ContentValues, sample: CadenceSample)
    modifies contentValues
    ensures contentValues.values == EncodeSample(old(contentValues.values), sample)
  {
    contentValues.Put(RevolutionsPerMinuteColumnName, RealValue(sample.revolutionsPerMinute));
    contentValues.Put(EpochMillisColumnName, IntegerValue(sample.epochMillis));
  }

  /**
   * Writing a sample touches exactly the series columns, with the declared
   * kinds, keeps every other column, and reading the row back gives the sample.
   */
  lemma EncodeSampleRoundTrip(values: Row, sample: CadenceSample)
    requires HasUuid(values)
    ensures EncodeSample(values, sample).Keys == values.Keys + ColumnNames(GetSeriesRecordColumnInfo())
    ensures forall k :: k in values && k !in ColumnNames(GetSeriesRecordColumnInfo()) ==>
      EncodeSample(values, sample)[k] == values[k]
    ensures IsSeriesRow(EncodeSample(values, sample))
    ensures Conforms(EncodeSample(values, sample), GetSeriesRecordColumnInfo())
    ensures Uuid(EncodeSample(values, sample)) == Uuid(values)
    ensures DecodeSample(EncodeSample(values, sample)) == sample
  {
    var names := ColumnNames(GetSeriesRecordColumnInfo());
    assert GetSeriesRecordColumnInfo()[0].name in names;
    assert GetSeriesRecordColumnInfo()[1].name in names;
    assert names == {EpochMillisColumnName, RevolutionsPerMinuteColumnName};
  }

  /** The series rows of one record: its samples in order, each tagged with the record's UUID. */
  function EncodeGroup(uuid: string, samples: seq<CadenceSample>): seq<Row> {
    seq(|samples|, i requires 0 <= i < |samples| =>
      EncodeSample(map[UuidColumnName := TextValue(uuid)], samples[i]))
  }

  /**
   * Series round trip: with the rows of a record between other records' rows
   * (the next one starting with a different UUID), the group found at the
   * record's first row is exactly its rows, and they decode to its samples
   * in their original order.
   */
  lemma {:induction false} EncodedGroupDecodes(before: seq<Row>, uuid: string,
                                               samples: seq<CadenceSample>, after: seq<Row>)
    requires |samples| >= 1
    requires AreSeriesRows(before) && AreSeriesRows(after)
    requires after == [] || Uuid(after[0]) != uuid
    ensures var rows := before + EncodeGroup(uuid, samples) + after;
      && AreSeriesRows(rows)
      && GroupLength(rows, |before|) == |samples|
      && DecodeSamples(rows[|before|..|before| + |samples|]) == samples
  {
    var group := EncodeGroup(uuid, samples);
    var rows := before + group + after;
    forall i | 0 <= i < |samples|
      ensures IsSeriesRow(group[i]) && Uuid(group[i]) == uuid && DecodeSample(group[i]) == samples[i]
    {
      EncodeSampleRoundTrip(map[UuidColumnName := TextValue(uuid)], samples[i]);
    }
    assert AreSeriesRows(rows) by {
      forall i | 0 <= i < |rows| ensures IsSeriesRow(rows[i]) {
        if i < |before| {
          assert rows[i] == before[i];
        } else if i < |before| + |group| {
          assert rows[i] == group[i - |before|];
        } else {
          assert rows[i] == after[i - |before| - |group|];
        }
      }
    }
    assert rows[|before|..|before| + |samples|] == group;
    forall i | |before| <= i < |before| + |samples|
      ensures Uuid(rows[i]) == Uuid(rows[|before|])
    {
      assert rows[i] == group[i - |before|];
    }
    if after != [] {
      assert rows[|before| + |samples|] == after[0];
    }
    GroupLengthIsThatOfAnyMaximalRun(rows, |before|, |samples|);
    assert DecodeSamples(group) == samples;
  }
}
