# HealthConnect core, modelled in Dafny

This project models a slice of Android's HealthConnect module:

- **Storage row codecs.** The row codecs of three record types map records to and from rows of the service's SQLite tables:
  - cycling pedaling cadence and power are series records, stored as one row per sample and grouped by the record's UUID;
  - total calories burned is an interval record, stored as one energy column.
- **Record types as apps see them.** This covers their builders, null checks, `equals` and `hashCode`, for:
  - `CervicalMucusRecord`;
  - `CyclingPedalingCadenceRecord` and its samples;
  - `ExerciseSegment`;
  - the parcel and conversion code of `TotalCaloriesBurnedRecordInternal`.
- **The aggregation response.** `AggregateRecordsGroupedByDurationResponse` re-keys the service's id-to-result map by aggregation type.
- **`FirstGrantTimeManager`.** This service component remembers, per app uid, when a health permission was first granted. It does three jobs:
  - it keeps the cache up to date on permission changes and package removals;
  - it writes each user's state to a datastore;
  - it reconciles restored state with the apps that currently hold health permissions.

Modules:

- `JavaLang` holds the Java semantics the model depends on:
  - null as `Option`, and a thrown exception as `Result.Thrown`;
  - `double` as its 64 IEEE bits, with Java's primitive `==` (NaN is unequal to itself, and +0 equals −0);
  - `int` wrap-around in `Objects.hash`.
- `Storage` holds an `android.database.Cursor` over a fixed list of rows, `ContentValues`, and the UUID grouping of series rows (`GroupLength`).
- Every other module matches one source file.

Objects whose fields change stay classes:

- cursors, content values, parcels, builders;
- the internal records;
- the uid cache, `UserGrantTimeState` and the manager.

Immutable values are datatypes. A class with `const` fields is used where the source's `equals` begins with reference identity, as for `CervicalMucusRecord` and `CyclingPedalingCadenceRecordSample`. A record's sample list is a class too, `SampleList`, because the record keeps the caller's list object and `List.equals` begins with a reference test.

Collaborators the source calls but does not define are parameters. This covers:

- the package manager, the permission-intent tracker and `PackageInfoUtils`, as the function fields of `PackageQueries`;
- `UserHandle.getUserHandleForUid`;
- the datastore's read, as `readForUser`;
- the clock, as `now`;
- the system's current zone offset;
- `AggregationTypeIdMapper`;
- the superclasses' `equals`/`hashCode`;
- `Instant.hashCode`;
- the `TimeInterval` constructor.

Datastore writes are recorded in a ghost log, `FirstGrantTimeManager.writes`.

Java's `HashMap`/`ArrayMap`/`ArraySet` iteration order is unspecified, so the model does not fix one. Each loop over a map or set picks any remaining element. Where two entries collide on one key, the contracts say that key holds the value of *some* colliding entry. Separate lemmas show that without collisions the result is unique.

## Model

| member | source | states |
|---|---|---|
| CyclingPedalingCadenceRecordHelper.ColumnInfoIsEpochThenCadence | service/java/com/android/server/healthconnect/storage/datatypehelpers/CyclingPedalingCadenceRecordHelper.java:46-68 | the series table has exactly the columns epoch_millis (INTEGER) and revolutions_per_minute (REAL), in that order; the main and series table names differ |
| CyclingPedalingCadenceRecordHelper.PopulateSpecificValues | service/java/com/android/server/healthconnect/storage/datatypehelpers/CyclingPedalingCadenceRecordHelper.java:72-86 | the cursor's row and every following row with the same UUID become the record's samples, one per row, in order; the cursor ends on the group's last row |
| CyclingPedalingCadenceRecordHelper.PopulateSampleTo | service/java/com/android/server/healthconnect/storage/datatypehelpers/CyclingPedalingCadenceRecordHelper.java:89-97 | the content values become the old ones with the cadence and epoch-millis columns set from the sample |
| CyclingPedalingCadenceRecordHelper.EncodeSampleRoundTrip | service/java/com/android/server/healthconnect/storage/datatypehelpers/CyclingPedalingCadenceRecordHelper.java:72-97 | writing a sample adds exactly the declared series columns, with their declared kinds, and keeps every other column and the UUID; reading the row back gives the sample |
| CyclingPedalingCadenceRecordHelper.EncodedGroupDecodes | service/java/com/android/server/healthconnect/storage/datatypehelpers/CyclingPedalingCadenceRecordHelper.java:72-97 | series round trip: a record's rows, placed between other records' rows, form exactly one group, which decodes to the record's samples in order |
| CyclingPedalingCadenceRecordHelper.DecodeSamplesExtend | service/java/com/android/server/healthconnect/storage/datatypehelpers/CyclingPedalingCadenceRecordHelper.java:76-84 | each iteration of the do-while loop appends the current row's sample to the samples decoded so far |
| Storage.GroupLength | service/java/com/android/server/healthconnect/storage/datatypehelpers/CyclingPedalingCadenceRecordHelper.java:76-84 | the rows the do-while loop reads form the maximal non-empty run with the first row's UUID: the run ends at the last row or at a different UUID |
| Storage.GroupLengthIsThatOfAnyMaximalRun | service/java/com/android/server/healthconnect/storage/datatypehelpers/PowerRecordHelper.java:70-78 | any maximal run with the first row's UUID is exactly the group the loop reads |
| PowerRecordHelper.ColumnInfoIsPowerThenEpoch | service/java/com/android/server/healthconnect/storage/datatypehelpers/PowerRecordHelper.java:43-65 | the series table has exactly the columns power (REAL) and epoch_millis (INTEGER), in that order; the main and series table names differ |
| PowerRecordHelper.PopulateSpecificValues | service/java/com/android/server/healthconnect/storage/datatypehelpers/PowerRecordHelper.java:68-80 | the cursor's row and every following row with the same UUID become the record's power samples, in order; the cursor ends on the group's last row |
| PowerRecordHelper.PopulateSampleTo | service/java/com/android/server/healthconnect/storage/datatypehelpers/PowerRecordHelper.java:83-87 | the content values become the old ones with the power and epoch-millis columns set from the sample |
| PowerRecordHelper.EncodeSampleRoundTrip | service/java/com/android/server/healthconnect/storage/datatypehelpers/PowerRecordHelper.java:68-87 | writing a sample adds exactly the declared columns with their kinds and keeps the rest; reading it back gives the sample |
| PowerRecordHelper.EncodedGroupDecodes | service/java/com/android/server/healthconnect/storage/datatypehelpers/PowerRecordHelper.java:68-87 | series round trip: a record's rows between other records' rows form one group, which decodes to its samples in order |
| PowerRecordHelper.DecodeSamplesExtend | service/java/com/android/server/healthconnect/storage/datatypehelpers/PowerRecordHelper.java:70-78 | each loop iteration appends the current row's sample to those decoded so far |
| TotalCaloriesBurnedRecordHelper.ColumnInfoIsEnergyOnly | service/java/com/android/server/healthconnect/storage/datatypehelpers/TotalCaloriesBurnedRecordHelper.java:39-67 | the table name (lines 39-47) and the record-specific columns (lines 63-67): the columns are exactly [energy REAL]; the table is total_calories_burned_record_table |
| TotalCaloriesBurnedRecordHelper.PopulateSpecificRecordValue | service/java/com/android/server/healthconnect/storage/datatypehelpers/TotalCaloriesBurnedRecordHelper.java:50-54 | the record's energy becomes the current row's energy column; nothing else changes |
| TotalCaloriesBurnedRecordHelper.PopulateSpecificContentValues | service/java/com/android/server/healthconnect/storage/datatypehelpers/TotalCaloriesBurnedRecordHelper.java:57-61 | the energy column is set to the record's energy; every other column keeps its value |
| TotalCaloriesBurnedRecordHelper.WrittenValuesConformToColumnInfo | service/java/com/android/server/healthconnect/storage/datatypehelpers/TotalCaloriesBurnedRecordHelper.java:57-67 | the written row gains exactly the declared column, with the declared kind |
| TotalCaloriesBurnedRecordHelper.RowRoundTrip | service/java/com/android/server/healthconnect/storage/datatypehelpers/TotalCaloriesBurnedRecordHelper.java:50-61 | row round trip: writing a record and reading the row into another record carries the energy over unchanged |
| TotalCaloriesBurnedRecordInternal.TotalCaloriesBurnedRecordInternal.SetEnergy | framework/java/android/healthconnect/internal/datatypes/TotalCaloriesBurnedRecordInternal.java:40-43 | the energy is set, only the energy changes, and the same object is returned for chaining |
| TotalCaloriesBurnedRecordInternal.TotalCaloriesBurnedRecordInternal.PopulateIntervalRecordFromParcel | framework/java/android/healthconnect/internal/datatypes/TotalCaloriesBurnedRecordInternal.java:59-61 | the energy becomes the next double of the parcel, which advances by exactly one value |
| TotalCaloriesBurnedRecordInternal.TotalCaloriesBurnedRecordInternal.PopulateIntervalRecordFromRecord | framework/java/android/healthconnect/internal/datatypes/TotalCaloriesBurnedRecordInternal.java:64-66 | the energy becomes the public record's energy in joules |
| TotalCaloriesBurnedRecordInternal.TotalCaloriesBurnedRecordInternal.PopulateIntervalRecordTo | framework/java/android/healthconnect/internal/datatypes/TotalCaloriesBurnedRecordInternal.java:69-71 | exactly one double, the energy, is appended to the parcel |
| TotalCaloriesBurnedRecordInternal.ParcelRoundTrip | framework/java/android/healthconnect/internal/datatypes/TotalCaloriesBurnedRecordInternal.java:59-71 | parcel round trip: the energy one record writes is the energy another reads back |
| TotalCaloriesBurnedRecordInternal.ExternalRecordRoundTrip | framework/java/android/healthconnect/internal/datatypes/TotalCaloriesBurnedRecordInternal.java:47-66 | the public record carries the interval fields unchanged, and populating from it restores the energy |
| ExerciseSegment.NewExerciseSegment | framework/java/android/healthconnect/datatypes/ExerciseSegment.java:38-51 | a null interval throws NullPointerException; if the interval is non-null, a negative repetition count throws IllegalArgumentException and any other count gives exactly the given segment |
| ExerciseSegment.EqualsIsAnEquivalence | framework/java/android/healthconnect/datatypes/ExerciseSegment.java:85-91 | equals is reflexive, symmetric and transitive |
| ExerciseSegment.EqualsIgnoresInterval | framework/java/android/healthconnect/datatypes/ExerciseSegment.java:85-96 | segments that differ only in their interval are equal and hash alike |
| ExerciseSegment.EqualSegmentsHaveEqualHashCodes | framework/java/android/healthconnect/datatypes/ExerciseSegment.java:85-96 | equal segments have equal hash codes |
| ExerciseSegment.Builder.SetRepetitionsCount | framework/java/android/healthconnect/datatypes/ExerciseSegment.java:120-127 | a negative count throws IllegalArgumentException("Number of repetitions must be non negative.") and leaves the builder unchanged; any other count is stored and the builder returned |
| ExerciseSegment.Builder.Build | framework/java/android/healthconnect/datatypes/ExerciseSegment.java:133-136 | a builder's count is never negative, so build never throws; the segment carries the builder's interval, type and count |
| ExerciseSegment.NewBuilder | framework/java/android/healthconnect/datatypes/ExerciseSegment.java:104-114 | a null start or end throws NullPointerException; otherwise whatever the TimeInterval constructor throws is thrown; otherwise the builder holds that interval, the type, and a count of 0 |
| CervicalMucusRecord.EqualsIsReflexive | framework/java/android/healthconnect/datatypes/CervicalMucusRecord.java:136-141 | a record equals itself whatever the superclass's equals says |
| CervicalMucusRecord.EqualsOfDistinctRecords | framework/java/android/healthconnect/datatypes/CervicalMucusRecord.java:136-141 | two distinct records are equal iff the superclass's equals holds and sensation and appearance agree |
| CervicalMucusRecord.EqualRecordsHaveEqualHashCodes | framework/java/android/healthconnect/datatypes/CervicalMucusRecord.java:136-147 | equal records hash alike, given a superclass hashCode consistent with its equals |
| CervicalMucusRecord.Builder.SetZoneOffset | framework/java/android/healthconnect/datatypes/CervicalMucusRecord.java:179-185 | a null offset throws and changes nothing; otherwise the offset is set and the builder returned |
| CervicalMucusRecord.Builder.Build | framework/java/android/healthconnect/datatypes/CervicalMucusRecord.java:187-193 | a new record carrying the builder's metadata, time, offset, sensation and appearance, with codes outside the documented constants kept as given |
| CervicalMucusRecord.NewBuilder | framework/java/android/healthconnect/datatypes/CervicalMucusRecord.java:165-177 | a null metadata or time throws NullPointerException; otherwise the builder holds the values, with the zone offset set to the system's current offset |
| CyclingPedalingCadenceRecord.NewSample | framework/java/android/healthconnect/datatypes/CyclingPedalingCadenceRecord.java:74-79 | a sample with a null time throws NullPointerException, and only then; otherwise a new sample carries the given cadence and time |
| CyclingPedalingCadenceRecord.SampleEqualsIsIdentity | framework/java/android/healthconnect/datatypes/CyclingPedalingCadenceRecord.java:102-111 | a sample equals another iff it is the same object and its cadence is not NaN, since equals tests identity first |
| CyclingPedalingCadenceRecord.SamplesWithEqualValuesAreNotEqual | framework/java/android/healthconnect/datatypes/CyclingPedalingCadenceRecord.java:102-111 | two distinct samples with the same cadence and time are not equal |
| CyclingPedalingCadenceRecord.NewRecord | framework/java/android/healthconnect/datatypes/CyclingPedalingCadenceRecord.java:38-53 | the record constructor throws NullPointerException iff metadata, start time, a zone offset or the sample list is null; the end time is never checked; the record keeps the caller's own list object, not a copy |
| CyclingPedalingCadenceRecord.ConstructorLetsNullEndTimeThrough | framework/java/android/healthconnect/datatypes/CyclingPedalingCadenceRecord.java:46-51 | a null end time passes the constructor's own checks |
| CyclingPedalingCadenceRecord.SamplesEqualIffSameElements | framework/java/android/healthconnect/datatypes/CyclingPedalingCadenceRecord.java:200 | `List.equals` on two sample lists (the same list, or pairwise `Objects.equals`) holds iff they hold the same sample objects in the same order, NaN cadences included |
| CyclingPedalingCadenceRecord.RecordEqualsIffSameSampleObjects | framework/java/android/healthconnect/datatypes/CyclingPedalingCadenceRecord.java:196-203 | two records are equal iff the superclass's equals holds and their lists hold the same sample objects in the same order |
| CyclingPedalingCadenceRecord.RecordEqualsIsReflexive | framework/java/android/healthconnect/datatypes/CyclingPedalingCadenceRecord.java:196-203 | with a reflexive superclass equals, a record equals itself and every record with its header and its list object, even if a cadence is NaN |
| CyclingPedalingCadenceRecord.EqualRecordsHaveEqualHashCodes | framework/java/android/healthconnect/datatypes/CyclingPedalingCadenceRecord.java:196-209 | equal records hash alike, given a superclass hashCode consistent with its equals |
| CyclingPedalingCadenceRecord.Builder.SetStartZoneOffset | framework/java/android/healthconnect/datatypes/CyclingPedalingCadenceRecord.java:160-165 | a null offset throws and changes nothing; otherwise only the start offset is set and the builder returned |
| CyclingPedalingCadenceRecord.Builder.SetEndZoneOffset | framework/java/android/healthconnect/datatypes/CyclingPedalingCadenceRecord.java:168-173 | a null offset throws and changes nothing; otherwise only the end offset is set and the builder returned |
| CyclingPedalingCadenceRecord.Builder.Build | framework/java/android/healthconnect/datatypes/CyclingPedalingCadenceRecord.java:178-187 | build never throws; the record holds the builder's fields, a non-null end time, and the builder's own list object |
| CyclingPedalingCadenceRecord.NewBuilder | framework/java/android/healthconnect/datatypes/CyclingPedalingCadenceRecord.java:140-157 | a null metadata, start time, end time or list throws NullPointerException, and only then; otherwise both offsets start at the system's current offset |
| ExerciseSegment.Equals | framework/java/android/healthconnect/datatypes/ExerciseSegment.java:85-91 | equality by segment type and repetition count, the interval not compared; its properties are the three lemmas below |
| ExerciseSegment.HashCode | framework/java/android/healthconnect/datatypes/ExerciseSegment.java:93-96 | `Objects.hash(segmentType, repetitionsCount)`, consistent with Equals by EqualSegmentsHaveEqualHashCodes |
| CervicalMucusRecord.CervicalMucusRecord.Equals | framework/java/android/healthconnect/datatypes/CervicalMucusRecord.java:136-141 | the same object, or the superclass equals with equal sensation and appearance; see EqualsIsReflexive and EqualsOfDistinctRecords |
| CervicalMucusRecord.CervicalMucusRecord.HashCode | framework/java/android/healthconnect/datatypes/CervicalMucusRecord.java:144-147 | `Objects.hash(super.hashCode(), sensation, appearance)`, consistent with Equals by EqualRecordsHaveEqualHashCodes |
| CyclingPedalingCadenceRecord.CyclingPedalingCadenceRecordSample.Equals | framework/java/android/healthconnect/datatypes/CyclingPedalingCadenceRecord.java:102-111 | `Object.equals` (identity), then `==` on the cadence and equal times; see SampleEqualsIsIdentity |
| CyclingPedalingCadenceRecord.CyclingPedalingCadenceRecordSample.HashCode | framework/java/android/healthconnect/datatypes/CyclingPedalingCadenceRecord.java:118-121 | `Objects.hash` of the identity hash code, `Double.hashCode` of the cadence and the time's hash code |
| CyclingPedalingCadenceRecord.ObjectsEquals | framework/java/android/healthconnect/datatypes/CyclingPedalingCadenceRecord.java:200 | `Objects.equals` on two samples, which `List.equals` applies to each pair of elements: identity first, then the sample's equals |
| CyclingPedalingCadenceRecord.SamplesEqual | framework/java/android/healthconnect/datatypes/CyclingPedalingCadenceRecord.java:200 | `List.equals`: the same list object, or the same length and pairwise `Objects.equals`; characterised by SamplesEqualIffSameElements |
| CyclingPedalingCadenceRecord.SamplesHashCode | framework/java/android/healthconnect/datatypes/CyclingPedalingCadenceRecord.java:208 | `List.hashCode` of the sample list |
| CyclingPedalingCadenceRecord.RecordEquals | framework/java/android/healthconnect/datatypes/CyclingPedalingCadenceRecord.java:196-203 | the superclass equals and `List.equals` of the two sample lists; characterised by RecordEqualsIffSameSampleObjects |
| CyclingPedalingCadenceRecord.RecordHashCode | framework/java/android/healthconnect/datatypes/CyclingPedalingCadenceRecord.java:205-209 | `Objects.hash(super.hashCode(), samples)`, consistent with RecordEquals by EqualRecordsHaveEqualHashCodes |
| TotalCaloriesBurnedRecordInternal.TotalCaloriesBurnedRecordInternal.GetEnergy | framework/java/android/healthconnect/internal/datatypes/TotalCaloriesBurnedRecordInternal.java:34-36 | the stored energy in joules; SetEnergy and the round trips state what it returns |
| TotalCaloriesBurnedRecordInternal.TotalCaloriesBurnedRecordInternal.ToExternalRecord | framework/java/android/healthconnect/internal/datatypes/TotalCaloriesBurnedRecordInternal.java:47-56 | the public record with this record's start and end times and zone offsets and its energy from joules; the metadata is the stored metadata field in place of the superclass's `buildMetaData()`; see ExternalRecordRoundTrip |
| AggregateRecordsGroupedByDurationResponse.AggregateRecordsGroupedByDurationResponse.constructor | framework/java/android/healthconnect/AggregateRecordsGroupedByDurationResponse.java:36-54 | the response holds the start and end times and the result map re-keyed by Rekey, so the Get lemmas apply to it |
| AggregateRecordsGroupedByDurationResponse.AggregateRecordsGroupedByDurationResponse.GetStartTime | framework/java/android/healthconnect/AggregateRecordsGroupedByDurationResponse.java:57-59 | the start time given to the constructor, by NewResponse's contract |
| AggregateRecordsGroupedByDurationResponse.AggregateRecordsGroupedByDurationResponse.GetEndTime | framework/java/android/healthconnect/AggregateRecordsGroupedByDurationResponse.java:62-64 | the end time given to the constructor, by NewResponse's contract |
| AggregateRecordsGroupedByDurationResponse.Rekey | framework/java/android/healthconnect/AggregateRecordsGroupedByDurationResponse.java:46-53 | every input id's aggregation type is a key; each key holds the result of some id mapped to it; without colliding ids, each id's type holds exactly its result and no entry is lost |
| AggregateRecordsGroupedByDurationResponse.NewResponse | framework/java/android/healthconnect/AggregateRecordsGroupedByDurationResponse.java:36-54 | a null start time, end time or result map throws NullPointerException, and only then; otherwise the response holds the times and the re-keyed map |
| AggregateRecordsGroupedByDurationResponse.AggregateRecordsGroupedByDurationResponse.Get | framework/java/android/healthconnect/AggregateRecordsGroupedByDurationResponse.java:67-77 | get throws NullPointerException iff the aggregation type is null |
| AggregateRecordsGroupedByDurationResponse.GetOfUnmappedTypeIsNull | framework/java/android/healthconnect/AggregateRecordsGroupedByDurationResponse.java:67-77 | get of a type that no id maps to gives null |
| AggregateRecordsGroupedByDurationResponse.GetOfMappedTypeIsSomeInputResult | framework/java/android/healthconnect/AggregateRecordsGroupedByDurationResponse.java:46-77 | get of an id's type gives the result value, or null, of some id of that type |
| AggregateRecordsGroupedByDurationResponse.GetOfInjectiveMappingIsInputResult | framework/java/android/healthconnect/AggregateRecordsGroupedByDurationResponse.java:46-77 | without colliding ids, get of an id's type gives exactly that id's result value, or null |
| FirstGrantTimeManager.UidToGrantTimeCache.Remove | service/java/com/android/server/healthconnect/permission/FirstGrantTimeManager.java:333-338 | a null uid removes nothing and returns null; otherwise the uid's entry is gone and its previous time returned; afterwards containsKey is false for that uid |
| FirstGrantTimeManager.UidToGrantTimeCache.Put | service/java/com/android/server/healthconnect/permission/FirstGrantTimeManager.java:348-350 | the uid now maps to the time, every other entry is unchanged, and the previous time is returned; afterwards containsKey is true for that uid |
| FirstGrantTimeManager.UidToGrantTimeCache.ExtractUserGrantTimeState | service/java/com/android/server/healthconnect/permission/FirstGrantTimeManager.java:358-383 | the extracted state has the current version; every uid of the user with a shared user name is filed under that name; every other uid of the user with a package name is filed under the package name; every filed name holds the time of some uid filed under it |
| FirstGrantTimeManager.ExtractionIsUniqueWithoutCollisions | service/java/com/android/server/healthconnect/permission/FirstGrantTimeManager.java:358-383 | when no two uids share a name, extraction has exactly one possible result, whatever the iteration order |
| FirstGrantTimeManager.FilingIsUniqueWithDistinctNames | service/java/com/android/server/healthconnect/permission/FirstGrantTimeManager.java:362-379 | with distinct names, filing the whole cache under one kind of name has exactly one result |
| FirstGrantTimeManager.FilingStep | service/java/com/android/server/healthconnect/permission/FirstGrantTimeManager.java:362-379 | filing one more uid sets its name, if it has one, to its time, and keeps the filing invariant |
| FirstGrantTimeManager.UidToGrantTimeCache.PutAll | service/java/com/android/server/healthconnect/permission/FirstGrantTimeManager.java:398-400 | every uid of the set maps to the time; the other entries are unchanged |
| FirstGrantTimeManager.UidToGrantTimeCache.PopulateFromUserGrantTimeState | service/java/com/android/server/healthconnect/permission/FirstGrantTimeManager.java:385-413 | the cache gains a shared-user round: every uid of each shared user in the state that has known uids. It then gains a package round: the uid of each package in the state that has one. Each entry comes from some matching name of the state, and the package round wins over the shared-user round |
| FirstGrantTimeManager.SharedUserRoundStep | service/java/com/android/server/healthconnect/permission/FirstGrantTimeManager.java:389-401 | putting one known shared user's time under all its uids extends the shared-user round by that user |
| FirstGrantTimeManager.SharedUserRoundSkip | service/java/com/android/server/healthconnect/permission/FirstGrantTimeManager.java:389-401 | a shared user without known uids leaves the round as it was |
| FirstGrantTimeManager.PackageRoundStep | service/java/com/android/server/healthconnect/permission/FirstGrantTimeManager.java:403-412 | putting one more package's time under its uid, if any, extends the package round by it |
| FirstGrantTimeManager.PermissionsChangeRecordsGrantStatus | service/java/com/android/server/healthconnect/permission/FirstGrantTimeManager.java:120-134 | after a permission change, the uid has a grant time iff a health permission is granted; an existing time is kept and a new one is the current time; no other uid is affected |
| FirstGrantTimeManager.PermissionsChangeIsIdempotent | service/java/com/android/server/healthconnect/permission/FirstGrantTimeManager.java:120-134 | a repeated change with the same grant status leaves the cache unchanged |
| FirstGrantTimeManager.FirstGrantTimeManager.OnPermissionsChanged | service/java/com/android/server/healthconnect/permission/FirstGrantTimeManager.java:101-136 | nothing changes when there are no packages, when none declares the permission-usage intent, or when the recorded status already matches; an empty package array throws ArrayIndexOutOfBoundsException; otherwise the uid's entry is added with the current time or removed, and the user's extracted state is written once |
| FirstGrantTimeManager.FirstGrantTimeManager.OnPackageRemoved | service/java/com/android/server/healthconnect/permission/FirstGrantTimeManager.java:138-157 | while packages remain on the uid, nothing changes; otherwise the uid's entry is gone, and the user's extracted state is written once, only if the uid had an entry |
| FirstGrantTimeManager.FirstGrantTimeManager.RestoreStatePerUserIfExists | service/java/com/android/server/healthconnect/permission/FirstGrantTimeManager.java:160-179 | the map holds exactly the listed users whose read did not throw, each with its stored state or, when none is stored, an empty state of the current version |
| FirstGrantTimeManager.FirstGrantTimeManager.ValidateAndCorrectRecordedStateForUser | service/java/com/android/server/healthconnect/permission/FirstGrantTimeManager.java:201-237 | the state becomes its reconciliation with the apps holding health permissions; it is written once iff that added or removed an entry |
| FirstGrantTimeManager.ReconciledMatchesValidApps | service/java/com/android/server/healthconnect/permission/FirstGrantTimeManager.java:201-237 | after reconciliation, the package keys are the non-shared package names and the shared-user keys the shared user ids; entries recorded and still valid keep their times, new ones get the current time, and the version is kept |
| FirstGrantTimeManager.ReconciliationChangesStateIff | service/java/com/android/server/healthconnect/permission/FirstGrantTimeManager.java:201-237 | reconciliation changes the state iff an entry must be added or removed |
| FirstGrantTimeManager.ReconciliationIsIdempotent | service/java/com/android/server/healthconnect/permission/FirstGrantTimeManager.java:201-237 | a reconciled state needs no further reconciliation, so validating it again writes nothing |
| FirstGrantTimeManager.ValidNamesStep | service/java/com/android/server/healthconnect/permission/FirstGrantTimeManager.java:213-222 | each info adds its package name, or its shared user id, to the matching valid set |
| FirstGrantTimeManager.AddMissingStep | service/java/com/android/server/healthconnect/permission/FirstGrantTimeManager.java:213-222 | setting a missing name's time extends the added-missing invariant; the name was missing iff it was neither recorded nor already valid |
| FirstGrantTimeManager.RemovingInvalidGivesReconciledTimes | service/java/com/android/server/healthconnect/permission/FirstGrantTimeManager.java:226-236 | removing the invalid names after the additions leaves exactly the reconciled times; something is removed iff a recorded name was invalid |
| FirstGrantTimeManager.FirstGrantTimeManager.SetPackageGrantTimeIfNotRecorded | service/java/com/android/server/healthconnect/permission/FirstGrantTimeManager.java:239-251 | a package without a time gets the current time; the result is true iff it had none; otherwise nothing changes |
| FirstGrantTimeManager.FirstGrantTimeManager.SetSharedUserGrantTimeIfNotRecorded | service/java/com/android/server/healthconnect/permission/FirstGrantTimeManager.java:253-265 | a shared user without a time gets the current time; the result is true iff it had none; otherwise nothing changes |
| FirstGrantTimeManager.FirstGrantTimeManager.RemoveInvalidPackagesFromGrantTimeStateForUser | service/java/com/android/server/healthconnect/permission/FirstGrantTimeManager.java:267-286 | keeps exactly the recorded packages in the valid set (none at all for a null set) with their times; the result is true iff any were removed |
| FirstGrantTimeManager.FirstGrantTimeManager.RemoveInvalidSharedUsersFromGrantTimeStateForUser | service/java/com/android/server/healthconnect/permission/FirstGrantTimeManager.java:288-307 | keeps exactly the recorded shared users in the valid set (none for a null set) with their times; the result is true iff any were removed |
| FirstGrantTimeManager.FirstGrantTimeManager.CheckSupportPermissionsUsageIntent | service/java/com/android/server/healthconnect/permission/FirstGrantTimeManager.java:309-317 | true iff some package of the array declares the permission-usage intent for the user |

## Left out

- Logging (`Log.w`/`Log.e`, `logIfInDebugMode`) is left out. The one exception is the debug-log argument `packageNames[0]` in `onPermissionsChanged`: it is evaluated even when debug logging is off, so an empty package array throws ArrayIndexOutOfBoundsException, and the model keeps that.
- Concurrency is left out: `mGrantTimeLock`, `@GuardedBy`, and the thread scheduler.
- `FirstGrantTimeManager`'s constructor and the rest of its state initialisation are not modelled: `initializeState`, `getFirstGrantTime`, and `validateAndCorrectRestoredState`, a loop over users that calls `validateAndCorrectRecordedStateForUser`. They are glue around the modelled operations, the package manager and the user manager.
- FirstGrantTimeManager.FirstGrantTimeManager.ValidateAndCorrectRecordedStateForUser: the source reads `Instant.now()` once per added entry; the model uses one `now` for the whole call. (`OnPermissionsChanged` reads the clock once, as the model does.)
- FirstGrantTimeManager.UidToGrantTimeCache.ExtractUserGrantTimeState: this returns the extracted state as a value rather than as a new `UserGrantTimeState` object. `PopulateFromUserGrantTimeState` likewise takes the state as a value.
- FirstGrantTimeManager.FirstGrantTimeManager.RestoreStatePerUserIfExists: the list of users is a parameter rather than a `UserManager` query, and the datastore read is a function of the user.
- The datastore (`FirstGrantTimeStateDatastore`) is not modelled beyond the sequence of `writeForUser` calls: serialisation and file I/O are out.
- The iteration order of `ArrayMap`, `ArraySet`, `HashMap` and `HashSet` is not modelled. With colliding keys, the contracts say only that the kept value is one of the colliding ones.
- FirstGrantTimeManager.PackageQueries treats the package manager, the permission-intent tracker and `PackageInfoUtils` as fixed functions during one call. Their own behaviour, including `NameNotFoundException` handling inside them, is not part of this model.
- CyclingPedalingCadenceRecord.NewBuilder: both default zone offsets are the one system offset passed in, whereas the source reads `Instant.now()` separately for each of them. `CervicalMucusRecord.NewBuilder` takes the system offset as a parameter in the same way.
- The superclasses are not modelled: `Record`, `InstantRecord`, `IntervalRecord`, `RecordInternal` and `IntervalRecordInternal`. Their `equals` and `hashCode` are parameters. Their parcel and cursor fields are not modelled; their own null and time-order checks stand behind the `TimeInterval` constructor parameter or are left out.
- `Energy` is kept in joules. Unit conversion and `Energy`'s validation are left out.
- TotalCaloriesBurnedRecordInternal.Parcel holds only the doubles this record's own part writes. Other parcel contents, and reading past the end, are left out: `ReadDouble` requires an unread value.
- `Objects.hash`, `Double.hashCode` and `Instant.hashCode` are modelled only as far as needed. `Objects.hash` is the 31-multiplier fold with 32-bit wrap-around, and `Instant.hashCode` is a parameter.
- The SQL side of the helpers is left out: the create-table statements, the upsert and the series join. So is the generic `RecordHelper` superclass. The model covers the column lists, table names and the value mapping.
- The series helpers' `populateSpecificValues` requires that the rows from the cursor's position on carry a UUID and series columns with values of the declared kinds. A row without them would make the Android cursor throw or return defaults, and that is not modelled.
- CyclingPedalingCadenceRecord.SamplesEqual follows the `List.equals` contract, which compares elements with `Objects.equals`. `ArrayList` does this too, but `AbstractList` and `List.of` lists call the element's `equals` directly. The two differ only for two distinct lists that hold the same sample object with a NaN cadence at the same index. Null list elements are not modelled.
- A sample list is modelled as an object holding its element sequence; the model has no operation that changes a list after the record is built, so a caller's later change to the shared list is not modelled.
- TotalCaloriesBurnedRecordInternal.TotalCaloriesBurnedRecordInternal.ToExternalRecord: `buildMetaData()` of the superclass, which assembles the metadata from the internal record's own fields, is not part of this model; the stored `metadata` field stands for its result. The public builder's own checks are not repeated.
- `AggregationTypeIdMapper` is a total function from ids to aggregation types. Its lookup failure for an unknown id is not modelled.
- The host-side and CTS tests, and `HealthConnectManagerService`, are not part of this model.
