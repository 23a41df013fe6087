/**
 * The first-grant-time bookkeeping of health permissions: an in-memory
 * cache from app uid to the instant a health permission was first granted,
 * persisted per user as package and shared-user grant times.
 */
module FirstGrantTimeManager {
  import opened JavaLang

  const CurrentVersion := 1

  /** A user, by its identifier. */
  datatype UserHandle = UserHandle(identifier: int)

  /** A `PackageInfo`, reduced to its package name and nullable shared user id. */
  datatype PackageInfo = PackageInfo(packageName: string, sharedUserId: Option<string>)

  /**
   * The answers of the package manager, the permission-intent tracker,
   * `PackageInfoUtils` and `UserHandle.getUserHandleForUid`, taken as fixed
   * for the duration of one call. A `None` stands for a null answer.
   */
  datatype PackageQueries = PackageQueries(
    packagesForUid: int -> Option<seq<string>>,
    packagesForUidInUser: (int, UserHandle) -> Option<seq<string>>,
    userHandleForUid: int -> UserHandle,
    supportsPermissionUsageIntent: (string, UserHandle) -> bool,
    hasGrantedHealthPermissions: (seq<string>, UserHandle) -> bool,
    sharedUserNameFromUid: int -> Option<string>,
    packageNameFromUid: int -> Option<string>,
    packageUid: (string, UserHandle) -> Option<int>)

  /** A user's grant times, as the datastore stores them. */
  datatype GrantTimeState = GrantTimeState(
    packageGrantTimes: map<string, Instant>,
    sharedUserGrantTimes: map<string, Instant>,
    version: int)

  /** `new UserGrantTimeState(CURRENT_VERSION)`: no grant times. */
  function EmptyState(): GrantTimeState {
    GrantTimeState(map[], map[], CurrentVersion)
  }

  /** A `UserGrantTimeState` object, whose two maps reconciliation edits in place. */
  class UserGrantTimeState {
    var packageGrantTimes: map<string, Instant>
    var sharedUserGrantTimes: map<string, Instant>
    const version: int

    constructor (state: GrantTimeState)
      ensures Value() == state
    {
      packageGrantTimes := state.packageGrantTimes;
      sharedUserGrantTimes := state.sharedUserGrantTimes;
      version := state.version;
    }

    function Value(): GrantTimeState
      reads this
    {
      GrantTimeState(packageGrantTimes, sharedUserGrantTimes, version)
    }

    predicate ContainsPackageGrantTime(packageName: string)
      reads this
    {
      packageName in packageGrantTimes
    }

    predicate ContainsSharedUserGrantTime(sharedUserName: string)
      reads this
    {
      sharedUserName in sharedUserGrantTimes
    }

    method SetPackageGrantTime(packageName: string, time: Instant)
      modifies this`packageGrantTimes
      ensures packageGrantTimes == old(packageGrantTimes)[packageName := time]
    {
      packageGrantTimes := packageGrantTimes[packageName := time];
    }

    method SetSharedUserGrantTime(sharedUserName: string, time: Instant)
      modifies this`sharedUserGrantTimes
      ensures sharedUserGrantTimes == old(sharedUserGrantTimes)[sharedUserName := time]
    {
      sharedUserGrantTimes := sharedUserGrantTimes[sharedUserName := time];
    }
  }

  /** One `writeForUser` call on the datastore. */
  datatype DatastoreWrite = DatastoreWrite(user: UserHandle, state: GrantTimeState)

  /** What `readForUser` does: returns a state, returns null, or throws. */
  datatype ReadOutcome = Stored(state: GrantTimeState) | NotStored | ReadFailed

  // ---------------------------------------------------------------------
  // Extraction of a user's state from the uid cache
  // ---------------------------------------------------------------------

  /** The two maps extraction fills. */
  datatype EntryKind = SharedUserEntry | PackageEntry

  /**
   * The name extraction files a uid under in the map of `kind`: a uid of
   * another user is in neither map; a uid with a shared user name is in the
   * shared-user map only; a uid with only a package name in the package
   * map only; a uid with neither name in neither.
   */
  function ExtractedName(q: PackageQueries, user: UserHandle, kind: EntryKind, uid: int): Option<string> {
    if q.userHandleForUid(uid) != user then None
    else match kind
      case SharedUserEntry => q.sharedUserNameFromUid(uid)
      case PackageEntry => if q.sharedUserNameFromUid(uid).Some? then None else q.packageNameFromUid(uid)
  }

  /**
   * `times` files the entries `uids` of `cache` by their names of `kind`:
   * it holds the name of every such uid that has one and no other name,
   * and each name holds the time of some uid filed under it (which one,
   * when several are, depends on the iteration order).
   */
  ghost predicate FiledByName(cache: map<int, Instant>, uids: set<int>, q: PackageQueries, user: UserHandle,
                              kind: EntryKind, times: map<string, Instant>) {
    && uids <= cache.Keys
    && (forall uid :: uid in uids && ExtractedName(q, user, kind, uid).Some? ==>
          ExtractedName(q, user, kind, uid).value in times)
    && (forall name :: name in times ==>
          exists uid :: uid in uids && ExtractedName(q, user, kind, uid) == Some(name) && times[name] == cache[uid])
  }

  /** `state` is what extraction makes of the entries `uids` of `cache` for `user`. */
  ghost predicate ExtractedFrom(cache: map<int, Instant>, uids: set<int>, q: PackageQueries, user: UserHandle,
                                state: GrantTimeState) {
    && state.version == CurrentVersion
    && FiledByName(cache, uids, q, user, SharedUserEntry, state.sharedUserGrantTimes)
    && FiledByName(cache, uids, q, user, PackageEntry, state.packageGrantTimes)
  }

  /** Filing one more entry: its name, if it has one, now holds its time. */
  lemma FilingStep(cache: map<int, Instant>, uids: set<int>, q: PackageQueries, user: UserHandle,
                   kind: EntryKind, times: map<string, Instant>, uid: int)
    requires FiledByName(cache, uids, q, user, kind, times) && uid in cache
    ensures var name := ExtractedName(q, user, kind, uid);
      FiledByName(cache, uids + {uid}, q, user, kind, if name.Some? then times[name.value := cache[uid]] else times)
  {
  }

  /** No two entries of `cache` have the same name of `kind`. */
  ghost predicate NamesAreDistinct(cache: map<int, Instant>, q: PackageQueries, user: UserHandle, kind: EntryKind) {
    forall u, v ::
      u in cache && v in cache && ExtractedName(q, user, kind, u).Some? &&
      ExtractedName(q, user, kind, u) == ExtractedName(q, user, kind, v)
      ==> u == v
  }

  /** With distinct names, filing the whole cache has exactly one result. */
  lemma FilingIsUniqueWithDistinctNames(cache: map<int, Instant>, q: PackageQueries, user: UserHandle,
                                        kind: EntryKind, t1: map<string, Instant>, t2: map<string, Instant>)
    requires FiledByName(cache, cache.Keys, q, user, kind, t1) && FiledByName(cache, cache.Keys, q, user, kind, t2)
    requires NamesAreDistinct(cache, q, user, kind)
    ensures t1 == t2
  {
    forall name | name in t1 ensures name in t2 && t1[name] == t2[name] {
      var u1 :| u1 in cache && ExtractedName(q, user, kind, u1) == Some(name) && t1[name] == cache[u1];
      var u2 :| u2 in cache && ExtractedName(q, user, kind, u2) == Some(name) && t2[name] == cache[u2];
    }
    forall name | name in t2 ensures name in t1 {
      var u2 :| u2 in cache && ExtractedName(q, user, kind, u2) == Some(name) && t2[name] == cache[u2];
    }
  }

  /** Without colliding names, extraction has exactly one possible result. */
  lemma ExtractionIsUniqueWithoutCollisions(cache: map<int, Instant>, q: PackageQueries, user: UserHandle,
                                            s1: GrantTimeState, s2: GrantTimeState)
    requires ExtractedFrom(cache, cache.Keys, q, user, s1) && ExtractedFrom(cache, cache.Keys, q, user, s2)
    requires NamesAreDistinct(cache, q, user, SharedUserEntry) && NamesAreDistinct(cache, q, user, PackageEntry)
    ensures s1 == s2
  {
    FilingIsUniqueWithDistinctNames(cache, q, user, SharedUserEntry, s1.sharedUserGrantTimes, s2.sharedUserGrantTimes);
    FilingIsUniqueWithDistinctNames(cache, q, user, PackageEntry, s1.packageGrantTimes, s2.packageGrantTimes);
  }

  // ---------------------------------------------------------------------
  // Population of the uid cache from a user's state
  // ---------------------------------------------------------------------

  /**
   * `entries` are the puts made for the shared users `names` of `state`:
   * every uid of a known one of them, each holding the time of some
   * shared user it belongs to.
   */
  ghost predicate SharedUserEntriesOf(entries: map<int, Instant>, state: GrantTimeState,
                                      sharedUserNameToUids: map<string, set<int>>, names: set<string>) {
    && (forall name, uid ::
          (name in names && name in state.sharedUserGrantTimes && name in sharedUserNameToUids &&
           uid in sharedUserNameToUids[name]) ==> uid in entries)
    && (forall uid :: uid in entries ==>
          exists name :: name in names && name in state.sharedUserGrantTimes && name in sharedUserNameToUids &&
            uid in sharedUserNameToUids[name] && entries[uid] == state.sharedUserGrantTimes[name])
  }

  /**
   * `entries` are the puts made for the packages `names` of `state`: the
   * uid of every one of them that has one, holding the time of some
   * package with that uid.
   */
  ghost predicate PackageEntriesOf(entries: map<int, Instant>, state: GrantTimeState, q: PackageQueries,
                                   user: UserHandle, names: set<string>) {
    && (forall name :: name in names && name in state.packageGrantTimes && q.packageUid(name, user).Some? ==>
          q.packageUid(name, user).value in entries)
    && (forall uid :: uid in entries ==>
          exists name :: name in names && name in state.packageGrantTimes && q.packageUid(name, user) == Some(uid) &&
            entries[uid] == state.packageGrantTimes[name])
  }

  /** The in-memory uid-to-grant-time cache. */
  class UidToGrantTimeCache {
    var uidToGrantTime: map<int, Instant>

    constructor ()
      ensures uidToGrantTime == map[]
    {
      uidToGrantTime := map[];
    }

    /** `remove`: a null uid removes nothing; otherwise the uid's previous time, if any, and no entry any more. */
    method Remove(uid: Option<int>) returns (previous: Option<Instant>)
      modifies this
      ensures uid.None? ==> previous.None? && uidToGrantTime == old(uidToGrantTime)
      ensures uid.Some? ==>
        && uidToGrantTime == old(uidToGrantTime) - {uid.value}
        && previous == (if uid.value in old(uidToGrantTime) then Some(old(uidToGrantTime)[uid.value]) else None)
      ensures !ContainsKey(uid)
    {
      if uid.None? {
        return None;
      }
      previous := if uid.value in uidToGrantTime then Some(uidToGrantTime[uid.value]) else None;
      uidToGrantTime := uidToGrantTime - {uid.value};
    }

    /** `containsKey`: false for a null uid. */
    predicate ContainsKey(uid: Option<int>)
      reads this
    {
      uid.Some? && uid.value in uidToGrantTime
    }

    /** `put`: the uid now holds `time`; the previous time, if any, is returned. */
    method Put(uid: int, time: Instant) returns (previous: Option<Instant>)
      modifies this
      ensures uidToGrantTime == old(uidToGrantTime)[uid := time]
      ensures previous == (if uid in old(uidToGrantTime) then Some(old(uidToGrantTime)[uid]) else None)
      ensures ContainsKey(Some(uid))
    {
      previous := if uid in uidToGrantTime then Some(uidToGrantTime[uid]) else None;
      uidToGrantTime := uidToGrantTime[uid := time];
    }

    /**
     * `extractUserGrantTimeState`: the user's entries, shared-user uids by
     * their shared user name and the other uids by their package name; a uid
     * of another user, or with neither name, is left out.
     */
    method ExtractUserGrantTimeState(user: UserHandle, q: PackageQueries) returns (state: GrantTimeState)
      ensures ExtractedFrom(uidToGrantTime, uidToGrantTime.Keys, q, user, state)
    {
      var sharedUserToGrantTime: map<string, Instant> := map[];
      var packageNameToGrantTime: map<string, Instant> := map[];
      var remaining := uidToGrantTime.Keys;
      while remaining != {}
        invariant remaining <= uidToGrantTime.Keys
        invariant ExtractedFrom(uidToGrantTime, uidToGrantTime.Keys - remaining, q, user,
                                GrantTimeState(packageNameToGrantTime, sharedUserToGrantTime, CurrentVersion))
        decreases remaining
      {
        var uid := AnyElement(remaining);
        var time := uidToGrantTime[uid];
        FilingStep(uidToGrantTime, uidToGrantTime.Keys - remaining, q, user, SharedUserEntry,
                   sharedUserToGrantTime, uid);
        FilingStep(uidToGrantTime, uidToGrantTime.Keys - remaining, q, user, PackageEntry,
                   packageNameToGrantTime, uid);
        assert uidToGrantTime.Keys - (remaining - {uid}) == uidToGrantTime.Keys - remaining + {uid};
        if q.userHandleForUid(uid) == user {
          var sharedUserName := q.sharedUserNameFromUid(uid);
          if sharedUserName.Some? {
            sharedUserToGrantTime := sharedUserToGrantTime[sharedUserName.value := time];
          } else {
            var packageName := q.packageNameFromUid(uid);
            if packageName.Some? {
              packageNameToGrantTime := packageNameToGrantTime[packageName.value := time];
            }
          }
        }
        remaining := remaining - {uid};
      }
      state := GrantTimeState(packageNameToGrantTime, sharedUserToGrantTime, CurrentVersion);
    }

    /** The inner loop of `populateFromUserGrantTimeState`: puts `time` under every uid of `uids`. */
    method PutAll(uids: set<int>, time: Instant)
      modifies this
      ensures uidToGrantTime == old(uidToGrantTime) + map uid | uid in uids :: time
    {
      var remaining := uids;
      while remaining != {}
        invariant remaining <= uids
        invariant uidToGrantTime == old(uidToGrantTime) + map uid | uid in uids - remaining :: time
        decreases remaining
      {
        var uid := AnyElement(remaining);
        var _ := Put(uid, time);
        remaining := remaining - {uid};
      }
    }

    /**
     * `populateFromUserGrantTimeState`: puts the time of every known shared
     * user of `state` under each of its uids, then the time of every package
     * of `state` that has a uid under that uid. `sharedEntries` and
     * `packageEntries` are the two rounds of puts; the later round wins.
     */
    method PopulateFromUserGrantTimeState(state: GrantTimeState, sharedUserNameToUids: map<string, set<int>>,
                                          user: UserHandle, q: PackageQueries)
      returns (ghost sharedEntries: map<int, Instant>, ghost packageEntries: map<int, Instant>)
      modifies this
      ensures SharedUserEntriesOf(sharedEntries, state, sharedUserNameToUids, state.sharedUserGrantTimes.Keys)
      ensures PackageEntriesOf(packageEntries, state, q, user, state.packageGrantTimes.Keys)
      ensures uidToGrantTime == old(uidToGrantTime) + sharedEntries + packageEntries
    {
      sharedEntries := map[];
      var remainingSharedUsers := state.sharedUserGrantTimes.Keys;
      while remainingSharedUsers != {}
        invariant remainingSharedUsers <= state.sharedUserGrantTimes.Keys
        invariant SharedUserEntriesOf(sharedEntries, state, sharedUserNameToUids,
                                      state.sharedUserGrantTimes.Keys - remainingSharedUsers)
        invariant uidToGrantTime == old(uidToGrantTime) + sharedEntries
        decreases remainingSharedUsers
      {
        var sharedUserName := AnyElement(remainingSharedUsers);
        var time := state.sharedUserGrantTimes[sharedUserName];
        ghost var done := state.sharedUserGrantTimes.Keys - remainingSharedUsers;
        remainingSharedUsers := remainingSharedUsers - {sharedUserName};
        assert state.sharedUserGrantTimes.Keys - remainingSharedUsers == done + {sharedUserName};
        if sharedUserName in sharedUserNameToUids {
          ghost var added := map uid | uid in sharedUserNameToUids[sharedUserName] :: time;
          PutAll(sharedUserNameToUids[sharedUserName], time);
          SharedUserRoundStep(sharedEntries, state, sharedUserNameToUids, done, sharedUserName);
          MapUnionIsAssociative(old(uidToGrantTime), sharedEntries, added);
          sharedEntries := sharedEntries + added;
        } else {
          SharedUserRoundSkip(sharedEntries, state, sharedUserNameToUids, done, sharedUserName);
        }
      }
      packageEntries := map[];
      var remainingPackages := state.packageGrantTimes.Keys;
      while remainingPackages != {}
        invariant remainingPackages <= state.packageGrantTimes.Keys
        invariant PackageEntriesOf(packageEntries, state, q, user, state.packageGrantTimes.Keys - remainingPackages)
        invariant uidToGrantTime == old(uidToGrantTime) + sharedEntries + packageEntries
        decreases remainingPackages
      {
        var packageName := AnyElement(remainingPackages);
        var time := state.packageGrantTimes[packageName];
        PackageRoundStep(packageEntries, state, q, user, state.packageGrantTimes.Keys - remainingPackages,
                         packageName);
        remainingPackages := remainingPackages - {packageName};
        var uid := q.packageUid(packageName, user);
        if uid.Some? {
          var _ := Put(uid.value, time);
          packageEntries := packageEntries[uid.value := time];
        }
      }
    }
  }

  /** Map union is associative; the shared-user round adds one union at a time. */
  lemma MapUnionIsAssociative<K, V>(a: map<K, V>, b: map<K, V>, c: map<K, V>)
    ensures a + b + c == a + (b + c)
  {
  }

  /** Putting a known shared user's time under all its uids extends the shared-user round by that user. */
  lemma SharedUserRoundStep(before: map<int, Instant>, state: GrantTimeState,
                            sharedUserNameToUids: map<string, set<int>>, done: set<string>, name: string)
    requires name in state.sharedUserGrantTimes && name in sharedUserNameToUids
    requires SharedUserEntriesOf(before, state, sharedUserNameToUids, done)
    ensures SharedUserEntriesOf(
      before + map uid | uid in sharedUserNameToUids[name] :: state.sharedUserGrantTimes[name],
      state, sharedUserNameToUids, done + {name})
  {
    var after := before + map uid | uid in sharedUserNameToUids[name] :: state.sharedUserGrantTimes[name];
    forall uid | uid in after
      ensures exists n ::
        && n in done + {name} && n in state.sharedUserGrantTimes && n in sharedUserNameToUids
        && uid in sharedUserNameToUids[n] && after[uid] == state.sharedUserGrantTimes[n]
    {
      if uid !in sharedUserNameToUids[name] {
        var n :| n in done && n in state.sharedUserGrantTimes && n in sharedUserNameToUids &&
          uid in sharedUserNameToUids[n] && before[uid] == state.sharedUserGrantTimes[n];
        assert after[uid] == before[uid];
      }
    }
  }

  /** A shared user without known uids leaves the shared-user round as it was. */
  lemma SharedUserRoundSkip(entries: map<int, Instant>, state: GrantTimeState,
                            sharedUserNameToUids: map<string, set<int>>, done: set<string>, name: string)
    requires name !in sharedUserNameToUids
    requires SharedUserEntriesOf(entries, state, sharedUserNameToUids, done)
    ensures SharedUserEntriesOf(entries, state, sharedUserNameToUids, done + {name})
  {
    forall uid | uid in entries
      ensures exists n ::
        && n in done + {name} && n in state.sharedUserGrantTimes && n in sharedUserNameToUids
        && uid in sharedUserNameToUids[n] && entries[uid] == state.sharedUserGrantTimes[n]
    {
      var n :| n in done && n in state.sharedUserGrantTimes && n in sharedUserNameToUids &&
        uid in sharedUserNameToUids[n] && entries[uid] == state.sharedUserGrantTimes[n];
    }
  }

  /** Putting one more package's time under its uid, if it has one, extends the package round by it. */
  lemma PackageRoundStep(before: map<int, Instant>, state: GrantTimeState, q: PackageQueries, user: UserHandle,
                         done: set<string>, name: string)
    requires name in state.packageGrantTimes
    requires PackageEntriesOf(before, state, q, user, done)
    ensures var uid := q.packageUid(name, user);
      PackageEntriesOf(if uid.Some? then before[uid.value := state.packageGrantTimes[name]] else before,
                       state, q, user, done + {name})
  {
    var uid := q.packageUid(name, user);
    var after := if uid.Some? then before[uid.value := state.packageGrantTimes[name]] else before;
    forall u | u in after
      ensures exists n ::
        && n in done + {name} && n in state.packageGrantTimes && q.packageUid(n, user) == Some(u)
        && after[u] == state.packageGrantTimes[n]
    {
      if uid != Some(u) {
        var n :| n in done && n in state.packageGrantTimes && q.packageUid(n, user) == Some(u) &&
          before[u] == state.packageGrantTimes[n];
      }
    }
  }

  // ---------------------------------------------------------------------
  // Permission changes and package removal
  // ---------------------------------------------------------------------

  /** Some package of `names` declares the permission-usage intent for `user`. */
  ghost predicate SupportsPermissionUsageIntent(names: seq<string>, user: UserHandle, q: PackageQueries) {
    exists name :: name in names && q.supportsPermissionUsageIntent(name, user)
  }

  /** The cache after a permission change of `uid` when health permissions are (not) granted. */
  function AfterPermissionsChanged(cache: map<int, Instant>, uid: int, anyGranted: bool, now: Instant)
    : map<int, Instant>
  {
    if (uid in cache) == anyGranted then cache
    else if anyGranted then cache[uid := now]
    else cache - {uid}
  }

  /**
   * After a permission change, the uid has a grant time exactly when a
   * health permission is granted; an existing time is kept, a new one is
   * `now`, and no other uid is affected.
   */
  lemma PermissionsChangeRecordsGrantStatus(cache: map<int, Instant>, uid: int, anyGranted: bool, now: Instant)
    ensures uid in AfterPermissionsChanged(cache, uid, anyGranted, now) <==> anyGranted
    ensures anyGranted ==>
      AfterPermissionsChanged(cache, uid, anyGranted, now)[uid] == if uid in cache then cache[uid] else now
    ensures forall other :: other != uid ==>
      && (other in AfterPermissionsChanged(cache, uid, anyGranted, now) <==> other in cache)
      && (other in cache ==> AfterPermissionsChanged(cache, uid, anyGranted, now)[other] == cache[other])
  {
  }

  /** A second permission change with the same grant status changes nothing. */
  lemma PermissionsChangeIsIdempotent(cache: map<int, Instant>, uid: int, anyGranted: bool,
                                      now: Instant, later: Instant)
    ensures var once := AfterPermissionsChanged(cache, uid, anyGranted, now);
      AfterPermissionsChanged(once, uid, anyGranted, later) == once
  {
  }

  /** `writes` is `before` with one more write: `user`'s state as extracted from `cache`. */
  ghost predicate WroteExtractedState(before: seq<DatastoreWrite>, writes: seq<DatastoreWrite>,
                                      cache: map<int, Instant>, q: PackageQueries, user: UserHandle) {
    && |writes| == |before| + 1 && writes[..|before|] == before
    && writes[|before|].user == user
    && ExtractedFrom(cache, cache.Keys, q, user, writes[|before|].state)
  }

  // ---------------------------------------------------------------------
  // Reconciliation of a restored state with the apps holding permissions
  // ---------------------------------------------------------------------

  /** The package names of the infos without a shared user id. */
  function ValidPackageNames(infos: seq<PackageInfo>): set<string> {
    set info | info in infos && info.sharedUserId.None? :: info.packageName
  }

  /** The shared user ids of the infos that have one. */
  function ValidSharedUserIds(infos: seq<PackageInfo>): set<string> {
    set info | info in infos && info.sharedUserId.Some? :: info.sharedUserId.value
  }

  /** Keeps the recorded time of every name of `valid`, gives the others `now`, and drops the rest. */
  function ReconciledTimes(recorded: map<string, Instant>, valid: set<string>, now: Instant): map<string, Instant> {
    map name | name in valid :: if name in recorded then recorded[name] else now
  }

  /** The state reconciliation leaves behind. */
  function Reconciled(state: GrantTimeState, infos: seq<PackageInfo>, now: Instant): GrantTimeState {
    GrantTimeState(
      ReconciledTimes(state.packageGrantTimes, ValidPackageNames(infos), now),
      ReconciledTimes(state.sharedUserGrantTimes, ValidSharedUserIds(infos), now),
      state.version)
  }

  /** Reconciliation must add or remove an entry. */
  predicate NeedsReconciliation(state: GrantTimeState, infos: seq<PackageInfo>) {
    state.packageGrantTimes.Keys != ValidPackageNames(infos) ||
    state.sharedUserGrantTimes.Keys != ValidSharedUserIds(infos)
  }

  /**
   * After reconciliation the package keys are the valid non-shared package
   * names and the shared-user keys the valid shared user ids; entries that
   * were recorded and stay valid keep their times, new ones get `now`.
   */
  lemma ReconciledMatchesValidApps(state: GrantTimeState, infos: seq<PackageInfo>, now: Instant)
    ensures var r := Reconciled(state, infos, now);
      && r.packageGrantTimes.Keys == ValidPackageNames(infos)
      && r.sharedUserGrantTimes.Keys == ValidSharedUserIds(infos)
      && r.version == state.version
      && (forall name :: name in r.packageGrantTimes ==>
            r.packageGrantTimes[name] == if name in state.packageGrantTimes then state.packageGrantTimes[name] else now)
      && (forall name :: name in r.sharedUserGrantTimes ==>
            r.sharedUserGrantTimes[name] ==
              if name in state.sharedUserGrantTimes then state.sharedUserGrantTimes[name] else now)
  {
  }

  /** Reconciliation changes the state exactly when it must add or remove an entry. */
  lemma ReconciliationChangesStateIff(state: GrantTimeState, infos: seq<PackageInfo>, now: Instant)
    ensures Reconciled(state, infos, now) != state <==> NeedsReconciliation(state, infos)
  {
    var r := Reconciled(state, infos, now);
    if !NeedsReconciliation(state, infos) {
      assert r.packageGrantTimes == state.packageGrantTimes;
      assert r.sharedUserGrantTimes == state.sharedUserGrantTimes;
    }
  }

  /** A reconciled state needs no further reconciliation against the same apps. */
  lemma ReconciliationIsIdempotent(state: GrantTimeState, infos: seq<PackageInfo>, now: Instant, later: Instant)
    ensures !NeedsReconciliation(Reconciled(state, infos, now), infos)
    ensures Reconciled(Reconciled(state, infos, now), infos, later) == Reconciled(state, infos, now)
  {
    ReconciliationChangesStateIff(Reconciled(state, infos, now), infos, later);
  }

  /** The valid names of one more info. */
  lemma ValidNamesStep(infos: seq<PackageInfo>, i: nat)
    requires i < |infos|
    ensures ValidPackageNames(infos[..i + 1]) ==
      ValidPackageNames(infos[..i]) + (if infos[i].sharedUserId.None? then {infos[i].packageName} else {})
    ensures ValidSharedUserIds(infos[..i + 1]) ==
      ValidSharedUserIds(infos[..i]) + (if infos[i].sharedUserId.Some? then {infos[i].sharedUserId.value} else {})
  {
    assert infos[..i + 1] == infos[..i] + [infos[i]];
  }

  /** `current` is `recorded` with `now` added for every name of `valid` it lacked. */
  ghost predicate AddedMissing(current: map<string, Instant>, recorded: map<string, Instant>, valid: set<string>,
                               now: Instant) {
    && current.Keys == recorded.Keys + valid
    && forall name :: name in current ==> current[name] == if name in recorded then recorded[name] else now
  }

  /** Setting the time of one more valid name if it is not recorded. */
  lemma AddMissingStep(current: map<string, Instant>, recorded: map<string, Instant>, valid: set<string>,
                       name: string, now: Instant)
    requires AddedMissing(current, recorded, valid, now)
    ensures name !in current <==> name !in recorded && name !in valid
    ensures AddedMissing(if name in current then current else current[name := now], recorded, valid + {name}, now)
  {
  }

  /**
   * Removing the names outside `valid` from the added-to times, keeping the
   * other times, leaves the reconciled times; it removes something exactly
   * when `recorded` had a name outside `valid`.
   */
  lemma RemovingInvalidGivesReconciledTimes(current: map<string, Instant>, recorded: map<string, Instant>,
                                            valid: set<string>, now: Instant, final: map<string, Instant>)
    requires AddedMissing(current, recorded, valid, now)
    requires final.Keys == current.Keys * valid
    requires forall name :: name in final ==> final[name] == current[name]
    ensures final == ReconciledTimes(recorded, valid, now)
    ensures final.Keys != current.Keys <==> !(recorded.Keys <= valid)
    ensures final.Keys == valid
  {
    assert final.Keys == valid;
    if recorded.Keys <= valid {
      assert current.Keys == final.Keys;
    } else {
      var name :| name in recorded.Keys && name !in valid;
      assert name in current.Keys && name !in final.Keys;
    }
  }

  /** `userToUserGrantTimeState` after restoring: the stored state, an empty state when none is stored. */
  function RestoredState(outcome: ReadOutcome): GrantTimeState
    requires !outcome.ReadFailed?
  {
    if outcome.Stored? then outcome.state else EmptyState()
  }

  class FirstGrantTimeManager {
    const cache: UidToGrantTimeCache
    /** Every `writeForUser` call on the datastore so far, in order. */
    ghost var writes: seq<DatastoreWrite>

    constructor ()
      ensures fresh(cache) && cache.uidToGrantTime == map[] && writes == []
    {
      cache := new UidToGrantTimeCache();
      writes := [];
    }

    /**
     * `onPermissionsChanged(uid)`. No packages for the uid, or no package
     * declaring the permission-usage intent, or a recorded status that
     * already matches the grant status: nothing changes. An empty package
     * array throws, from the debug-log argument `packageNames[0]`.
     * Otherwise the uid's entry is toggled and the user's state written once.
     */
    method OnPermissionsChanged(uid: int, q: PackageQueries, now: Instant) returns (outcome: Outcome)
      modifies this`writes, cache
      ensures q.packagesForUid(uid).None? ==>
        outcome == Normal && cache.uidToGrantTime == old(cache.uidToGrantTime) && writes == old(writes)
      ensures q.packagesForUid(uid).Some? && |q.packagesForUid(uid).value| == 0 ==>
        && outcome == Abrupt(ArrayIndexOutOfBoundsException)
        && cache.uidToGrantTime == old(cache.uidToGrantTime) && writes == old(writes)
      ensures q.packagesForUid(uid).Some? && |q.packagesForUid(uid).value| > 0 ==>
        outcome == Normal
      ensures q.packagesForUid(uid).Some? &&
              !SupportsPermissionUsageIntent(q.packagesForUid(uid).value, q.userHandleForUid(uid), q) ==>
        cache.uidToGrantTime == old(cache.uidToGrantTime) && writes == old(writes)
      ensures q.packagesForUid(uid).Some? &&
              SupportsPermissionUsageIntent(q.packagesForUid(uid).value, q.userHandleForUid(uid), q) ==>
        var names := q.packagesForUid(uid).value;
        var user := q.userHandleForUid(uid);
        var anyGranted := q.hasGrantedHealthPermissions(names, user);
        && cache.uidToGrantTime == AfterPermissionsChanged(old(cache.uidToGrantTime), uid, anyGranted, now)
        && ((uid in old(cache.uidToGrantTime)) == anyGranted ==> writes == old(writes))
        && ((uid in old(cache.uidToGrantTime)) != anyGranted ==>
              WroteExtractedState(old(writes), writes, cache.uidToGrantTime, q, user))
    {
      var packageNames := q.packagesForUid(uid);
      if packageNames.None? {
        return Normal;
      }
      var user := q.userHandleForUid(uid);
      var supported := CheckSupportPermissionsUsageIntent(packageNames.value, user, q);
      if !supported {
        if |packageNames.value| == 0 {
          return Abrupt(ArrayIndexOutOfBoundsException);
        }
        return Normal;
      }
      var anyHealthPermissionGranted := q.hasGrantedHealthPermissions(packageNames.value, user);
      var grantTimeRecorded := cache.ContainsKey(Some(uid));
      if grantTimeRecorded != anyHealthPermissionGranted {
        if grantTimeRecorded {
          var _ := cache.Remove(Some(uid));
        } else {
          var _ := cache.Put(uid, now);
        }
        var updatedState := cache.ExtractUserGrantTimeState(user, q);
        writes := writes + [DatastoreWrite(user, updatedState)];
      }
      outcome := Normal;
    }

    /**
     * `onPackageRemoved`: while packages remain on the uid nothing changes;
     * otherwise the uid loses its grant time, and the user's state is
     * written once if it had one.
     */
    method OnPackageRemoved(packageName: string, removedPackageUid: int, userHandle: UserHandle, q: PackageQueries)
      modifies this`writes, cache
      ensures var left := q.packagesForUidInUser(removedPackageUid, userHandle);
        left.Some? && |left.value| > 0 ==>
          cache.uidToGrantTime == old(cache.uidToGrantTime) && writes == old(writes)
      ensures var left := q.packagesForUidInUser(removedPackageUid, userHandle);
        left.None? || |left.value| == 0 ==>
          && cache.uidToGrantTime == old(cache.uidToGrantTime) - {removedPackageUid}
          && (removedPackageUid !in old(cache.uidToGrantTime) ==> writes == old(writes))
          && (removedPackageUid in old(cache.uidToGrantTime) ==>
                WroteExtractedState(old(writes), writes, cache.uidToGrantTime, q, userHandle))
    {
      var leftSharedUidPackages := q.packagesForUidInUser(removedPackageUid, userHandle);
      if leftSharedUidPackages.Some? && |leftSharedUidPackages.value| > 0 {
        return;
      }
      if cache.ContainsKey(Some(removedPackageUid)) {
        var _ := cache.Remove(Some(removedPackageUid));
        var updatedState := cache.ExtractUserGrantTimeState(userHandle, q);
        writes := writes + [DatastoreWrite(userHandle, updatedState)];
      }
    }

    /**
     * `restoreStatePerUserIfExists`: every listed user whose read succeeds,
     * with the stored state or, when none is stored, an empty state.
     */
    method RestoreStatePerUserIfExists(userHandles: seq<UserHandle>, readForUser: UserHandle -> ReadOutcome)
      returns (userToUserGrantTimeState: map<UserHandle, GrantTimeState>)
      ensures forall user :: user in userToUserGrantTimeState <==>
        user in userHandles && !readForUser(user).ReadFailed?
      ensures forall user :: user in userToUserGrantTimeState ==>
        !readForUser(user).ReadFailed? && userToUserGrantTimeState[user] == RestoredState(readForUser(user))
    {
      userToUserGrantTimeState := map[];
      for i := 0 to |userHandles|
        invariant forall user :: user in userToUserGrantTimeState <==>
          user in userHandles[..i] && !readForUser(user).ReadFailed?
        invariant forall user :: user in userToUserGrantTimeState ==>
          !readForUser(user).ReadFailed? && userToUserGrantTimeState[user] == RestoredState(readForUser(user))
      {
        var userHandle := userHandles[i];
        var restoredState := readForUser(userHandle);
        if restoredState.NotStored? {
          userToUserGrantTimeState := userToUserGrantTimeState[userHandle := EmptyState()];
        } else if restoredState.Stored? {
          userToUserGrantTimeState := userToUserGrantTimeState[userHandle := restoredState.state];
        }
        assert userHandles[..i + 1] == userHandles[..i] + [userHandle];
      }
      assert userHandles[..|userHandles|] == userHandles;
    }

    /**
     * `validateAndCorrectRecordedStateForUser`: reconciles `recordedState`
     * with the apps holding health permissions, and writes it once if that
     * added or removed an entry.
     */
    method ValidateAndCorrectRecordedStateForUser(recordedState: UserGrantTimeState,
                                                  healthPackagesInfos: seq<PackageInfo>,
                                                  user: UserHandle, now: Instant)
      modifies this`writes, recordedState
      ensures recordedState.Value() == Reconciled(old(recordedState.Value()), healthPackagesInfos, now)
      ensures writes == old(writes) +
        if NeedsReconciliation(old(recordedState.Value()), healthPackagesInfos)
        then [DatastoreWrite(user, recordedState.Value())] else []
    {
      ghost var recorded := recordedState.Value();
      var validPackagesPerUser: set<string> := {};
      var validSharedUsersPerUser: set<string> := {};
      var stateChanged := false;
      for i := 0 to |healthPackagesInfos|
        invariant validPackagesPerUser == ValidPackageNames(healthPackagesInfos[..i])
        invariant validSharedUsersPerUser == ValidSharedUserIds(healthPackagesInfos[..i])
        invariant recordedState.version == recorded.version
        invariant AddedMissing(recordedState.packageGrantTimes, recorded.packageGrantTimes, validPackagesPerUser, now)
        invariant AddedMissing(recordedState.sharedUserGrantTimes, recorded.sharedUserGrantTimes,
                               validSharedUsersPerUser, now)
        invariant stateChanged <==>
          !(validPackagesPerUser <= recorded.packageGrantTimes.Keys) ||
          !(validSharedUsersPerUser <= recorded.sharedUserGrantTimes.Keys)
        invariant writes == old(writes)
      {
        var info := healthPackagesInfos[i];
        ValidNamesStep(healthPackagesInfos, i);
        if info.sharedUserId.None? {
          AddMissingStep(recordedState.packageGrantTimes, recorded.packageGrantTimes, validPackagesPerUser,
                         info.packageName, now);
          var changed := SetPackageGrantTimeIfNotRecorded(recordedState, info.packageName, now);
          stateChanged := stateChanged || changed;
          validPackagesPerUser := validPackagesPerUser + {info.packageName};
        } else {
          AddMissingStep(recordedState.sharedUserGrantTimes, recorded.sharedUserGrantTimes, validSharedUsersPerUser,
                         info.sharedUserId.value, now);
          var changed := SetSharedUserGrantTimeIfNotRecorded(recordedState, info.sharedUserId.value, now);
          stateChanged := stateChanged || changed;
          validSharedUsersPerUser := validSharedUsersPerUser + {info.sharedUserId.value};
        }
      }
      assert healthPackagesInfos[..|healthPackagesInfos|] == healthPackagesInfos;
      ghost var added := recordedState.Value();
      var packagesRemoved := RemoveInvalidPackagesFromGrantTimeStateForUser(recordedState,
                                                                            Some(validPackagesPerUser));
      stateChanged := stateChanged || packagesRemoved;
      var sharedUsersRemoved := RemoveInvalidSharedUsersFromGrantTimeStateForUser(recordedState,
                                                                                  Some(validSharedUsersPerUser));
      stateChanged := stateChanged || sharedUsersRemoved;
      RemovingInvalidGivesReconciledTimes(added.packageGrantTimes, recorded.packageGrantTimes,
                                          validPackagesPerUser, now, recordedState.packageGrantTimes);
      RemovingInvalidGivesReconciledTimes(added.sharedUserGrantTimes, recorded.sharedUserGrantTimes,
                                          validSharedUsersPerUser, now, recordedState.sharedUserGrantTimes);
      if stateChanged {
        writes := writes + [DatastoreWrite(user, recordedState.Value())];
      }
    }

    /** A package without a recorded time gets `now`; the result says whether it had none. */
    method SetPackageGrantTimeIfNotRecorded(grantTimeState: UserGrantTimeState, packageName: string, now: Instant)
      returns (added: bool)
      modifies grantTimeState`packageGrantTimes
      ensures added <==> packageName !in old(grantTimeState.packageGrantTimes)
      ensures grantTimeState.packageGrantTimes ==
        if added then old(grantTimeState.packageGrantTimes)[packageName := now]
        else old(grantTimeState.packageGrantTimes)
    {
      if !grantTimeState.ContainsPackageGrantTime(packageName) {
        grantTimeState.SetPackageGrantTime(packageName, now);
        return true;
      }
      return false;
    }

    /** A shared user without a recorded time gets `now`; the result says whether it had none. */
    method SetSharedUserGrantTimeIfNotRecorded(grantTimeState: UserGrantTimeState, sharedUserIdName: string,
                                               now: Instant)
      returns (added: bool)
      modifies grantTimeState`sharedUserGrantTimes
      ensures added <==> sharedUserIdName !in old(grantTimeState.sharedUserGrantTimes)
      ensures grantTimeState.sharedUserGrantTimes ==
        if added then old(grantTimeState.sharedUserGrantTimes)[sharedUserIdName := now]
        else old(grantTimeState.sharedUserGrantTimes)
    {
      if !grantTimeState.ContainsSharedUserGrantTime(sharedUserIdName) {
        grantTimeState.SetSharedUserGrantTime(sharedUserIdName, now);
        return true;
      }
      return false;
    }

    /**
     * Drops every recorded package not in `validApps` (all of them when it
     * is null), keeping the other times; the result says whether any went.
     */
    method RemoveInvalidPackagesFromGrantTimeStateForUser(recordedState: UserGrantTimeState,
                                                          validApps: Option<set<string>>)
      returns (removed: bool)
      modifies recordedState`packageGrantTimes
      ensures recordedState.packageGrantTimes.Keys ==
        if validApps.Some? then old(recordedState.packageGrantTimes).Keys * validApps.value else {}
      ensures forall name :: name in recordedState.packageGrantTimes ==>
        recordedState.packageGrantTimes[name] == old(recordedState.packageGrantTimes)[name]
      ensures removed <==> recordedState.packageGrantTimes.Keys != old(recordedState.packageGrantTimes).Keys
    {
      var recordedButNotValid := recordedState.packageGrantTimes.Keys;
      if validApps.Some? {
        recordedButNotValid := recordedButNotValid - validApps.value;
      }
      if recordedButNotValid != {} {
        recordedState.packageGrantTimes := recordedState.packageGrantTimes - recordedButNotValid;
        return true;
      }
      if validApps.Some? {
        forall name | name in recordedState.packageGrantTimes ensures name in validApps.value {
          assert name !in recordedButNotValid;
        }
      }
      return false;
    }

    /**
     * Drops every recorded shared user not in `validSharedUsers` (all of
     * them when it is null), keeping the other times; the result says
     * whether any went.
     */
    method RemoveInvalidSharedUsersFromGrantTimeStateForUser(recordedState: UserGrantTimeState,
                                                             validSharedUsers: Option<set<string>>)
      returns (removed: bool)
      modifies recordedState`sharedUserGrantTimes
      ensures recordedState.sharedUserGrantTimes.Keys ==
        if validSharedUsers.Some? then old(recordedState.sharedUserGrantTimes).Keys * validSharedUsers.value else {}
      ensures forall name :: name in recordedState.sharedUserGrantTimes ==>
        recordedState.sharedUserGrantTimes[name] == old(recordedState.sharedUserGrantTimes)[name]
      ensures removed <==> recordedState.sharedUserGrantTimes.Keys != old(recordedState.sharedUserGrantTimes).Keys
    {
      var recordedButNotValid := recordedState.sharedUserGrantTimes.Keys;
      if validSharedUsers.Some? {
        recordedButNotValid := recordedButNotValid - validSharedUsers.value;
      }
      if recordedButNotValid != {} {
        recordedState.sharedUserGrantTimes := recordedState.sharedUserGrantTimes - recordedButNotValid;
        return true;
      }
      if validSharedUsers.Some? {
        forall name | name in recordedState.sharedUserGrantTimes ensures name in validSharedUsers.value {
          assert name !in recordedButNotValid;
        }
      }
      return false;
    }

    /** `checkSupportPermissionsUsageIntent`: whether some package declares the permission-usage intent. */
    method CheckSupportPermissionsUsageIntent(names: seq<string>, user: UserHandle, q: PackageQueries)
      returns (supported: bool)
      ensures supported <==> SupportsPermissionUsageIntent(names, user, q)
    {
      for i := 0 to |names|
        invariant forall j :: 0 <= j < i ==> !q.supportsPermissionUsageIntent(names[j], user)
      {
        if q.supportsPermissionUsageIntent(names[i], user) {
          return true;
        }
      }
      return false;
    }
  }
}
