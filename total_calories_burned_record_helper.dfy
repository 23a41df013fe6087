/**
 * The row codec of the total-calories-burned interval record: one row in the
 * main table, whose only record-specific column is the energy.
 */
module TotalCaloriesBurnedRecordHelper {
  import opened JavaLang
  import opened Storage
  import Internal = TotalCaloriesBurnedRecordInternal

  const TotalCaloriesBurnedRecordTableName := "total_calories_burned_record_table"
  const EnergyColumnName := "energy"

  function GetMainTableName(): string {
    TotalCaloriesBurnedRecordTableName
  }

  /** The main table's record-specific columns. */
  function GetIntervalRecordColumnInfo(): seq<ColumnInfo> {
    [ColumnInfo(EnergyColumnName, Real)]
  }

  lemma ColumnInfoIsEnergyOnly()
    ensures GetIntervalRecordColumnInfo() == [ColumnInfo("energy", Real)]
    ensures GetMainTableName() == "total_calories_burned_record_table"
  {
  }

  /** Sets the record's energy from the current row's energy column; nothing else changes. */
  method PopulateSpecificRecordValue(cursor: Cursor, record: Internal.TotalCaloriesBurnedRecordInternal)
    requires cursor.OnRow() && HasColumn(cursor.rows[cursor.position], EnergyColumnName, Real)
    modifies record`energy
    ensures record.energy == cursor.rows[cursor.position][EnergyColumnName].double
  {
    var _ := record.SetEnergy(cursor.GetDouble(EnergyColumnName));
  }

  /** Puts the record's energy under the energy column; other columns stay as they were. */
  method PopulateSpecificContentValues(contentValues: ContentValues,
                                       record: Internal.TotalCaloriesBurnedRecordInternal)
    modifies contentValues
    ensures contentValues.values == old(contentValues.values)[EnergyColumnName := RealValue(record.energy)]
  {
    contentValues.Put(EnergyColumnName, RealValue(record.GetEnergy()));
  }

  /** The written row carries exactly the declared record columns, with their kinds, on top of the others. */
  lemma WrittenValuesConformToColumnInfo(values: Row, energy: Double)
    ensures values[EnergyColumnName := RealValue(energy)].Keys
      == values.Keys + ColumnNames(GetIntervalRecordColumnInfo())
    ensures Conforms(values[EnergyColumnName := RealValue(energy)], GetIntervalRecordColumnInfo())
  {
    assert ColumnNames(GetIntervalRecordColumnInfo()) == {EnergyColumnName} by {
      assert GetIntervalRecordColumnInfo()[0].name == EnergyColumnName;
    }
  }

  /**
   * Row round trip: writing a record's values and reading the row back into
   * another record gives that record the same energy.
   */
  method RowRoundTrip(source: Internal.TotalCaloriesBurnedRecordInternal,
                      target: Internal.TotalCaloriesBurnedRecordInternal)
    modifies target`energy
    ensures target.energy == old(source.energy)
  {
    var contentValues := new ContentValues();
    PopulateSpecificContentValues(contentValues, source);
    var cursor := new Cursor([contentValues.values]);
    var onRow := cursor.MoveToNext();
    PopulateSpecificRecordValue(cursor, target);
  }
}
