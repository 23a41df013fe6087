/**
 * An instant record describing cervical mucus by two enum-coded ints,
 * sensation and appearance, built through a builder.
 */
module CervicalMucusRecord {
  import opened JavaLang

  // Appearance codes.
  const AppearanceUnknown: int32 := 0
  const AppearanceDry: int32 := 1
  const AppearanceSticky: int32 := 2
  const AppearanceCreamy: int32 := 3
  const AppearanceWatery: int32 := 4
  const AppearanceEggWhite: int32 := 5
  const AppearanceUnusual: int32 := 6

  // Sensation codes.
  const SensationUnknown: int32 := 0
  const SensationLight: int32 := 1
  const SensationMedium: int32 := 2
  const SensationHeavy: int32 := 3

  /** The values the appearance annotation documents; nothing enforces them. */
  predicate IsDocumentedAppearance(appearance: int32) {
    AppearanceUnknown <= appearance <= AppearanceUnusual
  }

  /** The values the sensation annotation documents; nothing enforces them. */
  predicate IsDocumentedSensation(sensation: int32) {
    SensationUnknown <= sensation <= SensationHeavy
  }

  /** The fields held by the `InstantRecord` superclass. */
  datatype InstantHeader = InstantHeader(metadata: Metadata, time: Instant, zoneOffset: ZoneOffset)

  /** An immutable record; it is an object because `equals` first tests identity. */
  class CervicalMucusRecord {
    const metadata: Metadata
    const time: Instant
    const zoneOffset: ZoneOffset
    const sensation: int32
    const appearance: int32

    constructor (metadata: Metadata, time: Instant, zoneOffset: ZoneOffset,
                 sensation: int32, appearance: int32)
      ensures this.metadata == metadata && this.time == time && this.zoneOffset == zoneOffset
      ensures this.sensation == sensation && this.appearance == appearance
    {
      this.metadata := metadata;
      this.time := time;
      this.zoneOffset := zoneOffset;
      this.sensation := sensation;
      this.appearance := appearance;
    }

    function Header(): InstantHeader {
      InstantHeader(metadata, time, zoneOffset)
    }

    function GetSensation(): int32 {
      sensation
    }

    function GetAppearance(): int32 {
      appearance
    }

    /**
     * `equals(o)`: the same object, or equal by the superclass's `equals`
     * (`superEquals`) with the same sensation and appearance.
     */
    predicate Equals(o: CervicalMucusRecord, superEquals: (InstantHeader, InstantHeader) -> bool) {
      this == o ||
      (superEquals(Header(), o.Header()) && GetSensation() == o.GetSensation() &&
       GetAppearance() == o.GetAppearance())
    }

    /** `hashCode`: `Objects.hash(super.hashCode(), sensation, appearance)`. */
    function HashCode(superHashCode: InstantHeader -> int32): int32 {
      ObjectsHash([superHashCode(Header()), GetSensation(), GetAppearance()])
    }
  }

  /** A record is equal to itself whatever the superclass's `equals` does. */
  lemma EqualsIsReflexive(r: CervicalMucusRecord, superEquals: (InstantHeader, InstantHeader) -> bool)
    ensures r.Equals(r, superEquals)
  {
  }

  /** Two distinct records are equal exactly when the superclass agrees and both codes match. */
  lemma EqualsOfDistinctRecords(r: CervicalMucusRecord, o: CervicalMucusRecord,
                                superEquals: (InstantHeader, InstantHeader) -> bool)
    requires r != o
    ensures r.Equals(o, superEquals) <==>
      superEquals(r.Header(), o.Header()) && r.sensation == o.sensation && r.appearance == o.appearance
  {
  }

  /** Equal records hash alike, given a superclass whose `hashCode` agrees with its `equals`. */
  lemma EqualRecordsHaveEqualHashCodes(r: CervicalMucusRecord, o: CervicalMucusRecord,
                                       superEquals: (InstantHeader, InstantHeader) -> bool,
                                       superHashCode: InstantHeader -> int32)
    requires forall h1, h2 :: superEquals(h1, h2) ==> superHashCode(h1) == superHashCode(h2)
    requires r.Equals(o, superEquals)
    ensures r.HashCode(superHashCode) == o.HashCode(superHashCode)
  {
  }

  /** The builder: records the zone offset, which starts at the system's current offset. */
  class Builder {
    const metadata: Metadata
    const time: Instant
    const sensation: int32
    const appearance: int32
    var zoneOffset: ZoneOffset

    constructor (metadata: Metadata, time: Instant, sensation: int32, appearance: int32,
                 systemOffset: ZoneOffset)
      ensures this.metadata == metadata && this.time == time
      ensures this.sensation == sensation && this.appearance == appearance
      ensures zoneOffset == systemOffset
    {
      this.metadata := metadata;
      this.time := time;
      this.sensation := sensation;
      this.appearance := appearance;
      zoneOffset := systemOffset;
    }

    /** A null offset throws and changes nothing; otherwise it replaces the offset. */
    method SetZoneOffset(zoneOffset: Option<ZoneOffset>) returns (r: Result<Builder>)
      modifies this
      ensures zoneOffset.None? ==> r == Thrown(NullPointerException) && this.zoneOffset == old(this.zoneOffset)
      ensures zoneOffset.Some? ==> r == Ok(this) && this.zoneOffset == zoneOffset.value
    {
      if zoneOffset.None? {
        return Thrown(NullPointerException);
      }
      this.zoneOffset := zoneOffset.value;
      r := Ok(this);
    }

    /** The record carries the builder's values, codes included, out-of-range codes as given. */
    method Build() returns (record: CervicalMucusRecord)
      ensures fresh(record)
      ensures record.Header() == InstantHeader(metadata, time, zoneOffset)
      ensures record.GetSensation() == sensation && record.GetAppearance() == appearance
    {
      record := new CervicalMucusRecord(metadata, time, zoneOffset, sensation, appearance);
    }
  }

  /** The builder's constructor: a null metadata or time throws a null-pointer exception. */
  method NewBuilder(metadata: Option<Metadata>, time: Option<Instant>, sensation: int32,
                    appearance: int32, systemOffset: ZoneOffset)
    returns (r: Result<Builder>)
    ensures r.Ok? <==> metadata.Some? && time.Some?
    ensures !r.Ok? ==> r == Thrown(NullPointerException)
    ensures r.Ok? ==>
      && fresh(r.value)
      && r.value.metadata == metadata.value && r.value.time == time.value
      && r.value.sensation == sensation && r.value.appearance == appearance
      && r.value.zoneOffset == systemOffset
  {
    if metadata.None? || time.None? {
      return Thrown(NullPointerException);
    }
    var b := new Builder(metadata.value, time.value, sensation, appearance, systemOffset);
    r := Ok(b);
  }
}
