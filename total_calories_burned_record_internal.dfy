/**
 * The internal (parcelable) form of a total-calories-burned interval record:
 * the interval fields kept by its superclass plus the energy in joules.
 */
module TotalCaloriesBurnedRecordInternal {
  import opened JavaLang

  /**
   * `android.os.Parcel`, reduced to the values this record's own part writes
   * and reads: a queue of doubles with a read position.
   */
  class Parcel {
    var values: seq<Double>
    var readPosition: nat

    constructor ()
      ensures values == [] && readPosition == 0
    {
      values := [];
      readPosition := 0;
    }

    method WriteDouble(d: Double)
      modifies this
      ensures values == old(values) + [d] && readPosition == old(readPosition)
    {
      values := values + [d];
    }

    method ReadDouble() returns (d: Double)
      requires readPosition < |values|
      modifies this
      ensures d == old(values[readPosition])
      ensures values == old(values) && readPosition == old(readPosition) + 1
    {
      d := values[readPosition];
      readPosition := readPosition + 1;
    }
  }

  /** An `Energy` value, by its amount in joules (`Energy.fromJoules` / `getInJoules`). */
  datatype Energy = Energy(inJoules: Double)

  /** The public `TotalCaloriesBurnedRecord` as its builder assembles it. */
  datatype TotalCaloriesBurnedRecord = TotalCaloriesBurnedRecord(
    metadata: Metadata,
    startTime: Instant,
    startZoneOffset: ZoneOffset,
    endTime: Instant,
    endZoneOffset: ZoneOffset,
    energy: Energy)

  class TotalCaloriesBurnedRecordInternal {
    // These five stand for the state of the interval-record superclass.
    var metadata: Metadata
    var startTime: Instant
    var startZoneOffset: ZoneOffset
    var endTime: Instant
    var endZoneOffset: ZoneOffset
    // The energy burned, in joules.
    var energy: Double

    /** A record whose energy field still holds Java's default `0.0`. */
    constructor (metadata: Metadata, startTime: Instant, startZoneOffset: ZoneOffset,
                 endTime: Instant, endZoneOffset: ZoneOffset)
      ensures this.metadata == metadata && this.startTime == startTime
      ensures this.startZoneOffset == startZoneOffset
      ensures this.endTime == endTime && this.endZoneOffset == endZoneOffset
      ensures energy == PositiveZero
    {
      this.metadata := metadata;
      this.startTime := startTime;
      this.startZoneOffset := startZoneOffset;
      this.endTime := endTime;
      this.endZoneOffset := endZoneOffset;
      energy := PositiveZero;
    }

    function GetEnergy(): Double
      reads this
    {
      energy
    }

    /** Sets the energy and returns this same object, for chaining. */
    method SetEnergy(energy: Double) returns (self: TotalCaloriesBurnedRecordInternal)
      modifies this`energy
      ensures self == this && GetEnergy() == energy
    {
      this.energy := energy;
      self := this;
    }

    /** The public record with this record's interval fields and its energy, from joules. */
    function ToExternalRecord(): TotalCaloriesBurnedRecord
      reads this
    {
      TotalCaloriesBurnedRecord(metadata, startTime, startZoneOffset, endTime, endZoneOffset,
                                Energy(energy))
    }

    /** Reads this record's own part of a parcel: one double, the energy. */
    method PopulateIntervalRecordFromParcel(parcel: Parcel)
      requires parcel.readPosition < |parcel.values|
      modifies this`energy, parcel
      ensures energy == old(parcel.values[parcel.readPosition])
      ensures parcel.values == old(parcel.values)
      ensures parcel.readPosition == old(parcel.readPosition) + 1
    {
      energy := parcel.ReadDouble();
    }

    /** Takes the energy, in joules, from a public record. */
    method PopulateIntervalRecordFromRecord(record: TotalCaloriesBurnedRecord)
      modifies this`energy
      ensures energy == record.energy.inJoules
    {
      energy := record.energy.inJoules;
    }

    /** Writes this record's own part of a parcel: exactly one double, the energy. */
    method PopulateIntervalRecordTo(parcel: Parcel)
      modifies parcel
      ensures parcel.values == old(parcel.values) + [energy]
      ensures parcel.readPosition == old(parcel.readPosition)
    {
      parcel.WriteDouble(energy);
    }
  }

  /**
   * Parcel round trip: what one record writes to a parcel, another reads
   * back as the same energy, and the parcel is then fully consumed.
   */
  method ParcelRoundTrip(source: TotalCaloriesBurnedRecordInternal,
                         target: TotalCaloriesBurnedRecordInternal)
    modifies target`energy
    ensures target.energy == old(source.energy)
  {
    var parcel := new Parcel();
    source.PopulateIntervalRecordTo(parcel);
    target.PopulateIntervalRecordFromParcel(parcel);
    assert parcel.readPosition == |parcel.values|;
  }

  /**
   * Conversion round trip: the public record built from a record carries its
   * interval fields unchanged, and populating another record from it
   * restores the energy in joules.
   */
  method ExternalRecordRoundTrip(source: TotalCaloriesBurnedRecordInternal,
                                 target: TotalCaloriesBurnedRecordInternal)
    modifies target`energy
    ensures var r := old(source.ToExternalRecord());
      && r.metadata == old(source.metadata)
      && r.startTime == old(source.startTime) && r.endTime == old(source.endTime)
      && r.startZoneOffset == old(source.startZoneOffset)
      && r.endZoneOffset == old(source.endZoneOffset)
    ensures target.energy == old(source.energy)
  {
    var external := source.ToExternalRecord();
    target.PopulateIntervalRecordFromRecord(external);
  }
}
