/**
 * The state-changing operations of TemplateDataStoreDaoImpl over the `template_store_ref`
 * table: the optimistic compare-and-set of `updateState`, the two deletes, the bulk role
 * rewrite and the duplication of image-cache records onto a region-wide store.
 *
 * Each operation's effect on the rows is a function of the old rows (the functions in
 * the first half, whose contracts and lemmas state what the source promises); the class
 * in the second half performs the operation in the source's order and is proved to
 * produce exactly that effect.
 */
module TemplateStoreDao {
  import opened Options
  import opened TemplateStoreRecords
  import opened TemplateStoreQueries

  // ---------------------------------------------------------------- updateState

  /** The parameters `updateState` binds: the object's id, the expected state, its update count before the call. */
  function CasBindings(id: int, current: State, count: int): Bindings
  {
    map[IdName := Int(id), StateName := One(StateValue(current)), UpdatedCountName := Int(count)]
  }

  predicate CasMatch(row: TemplateStoreRef, id: int, current: State, count: int)
  {
    row.id == id && row.state == current && row.updatedCount == count
  }

  /** The rows the UPDATE touches: `update(dataObj, sc)` returns their number. */
  function CasRows(rows: seq<TemplateStoreRef>, id: int, current: State, count: int): (r: seq<TemplateStoreRef>)
    ensures forall x :: x in r <==> x in rows && CasMatch(x, id, current, count)
  {
    var b := CasBindings(id, current, count);
    Matches3(UpdateStateSearch, b);
    Select(rows, UpdateStateSearch, b)
  }

  /** The row a successful update writes: the new state, the incremented count, and `destroyed` when the new state is Destroyed. */
  function CasWritten(row: TemplateStoreRef, next: State, count: int): TemplateStoreRef
  {
    row.(state := next, updatedCount := count + 1, destroyed := if next == Destroyed then true else row.destroyed)
  }

  /** The table after the UPDATE of `updateState`. */
  function CasApply(rows: seq<TemplateStoreRef>, id: int, current: State, count: int, next: State)
    : (r: seq<TemplateStoreRef>)
    ensures |r| == |rows|
    ensures forall k :: 0 <= k < |rows| ==>
      (CasMatch(rows[k], id, current, count) ==>
         r[k].state == next && r[k].updatedCount == rows[k].updatedCount + 1 &&
         r[k].destroyed == (rows[k].destroyed || next == Destroyed) &&
         r[k] == rows[k].(state := r[k].state, updatedCount := r[k].updatedCount, destroyed := r[k].destroyed)) &&
      (!CasMatch(rows[k], id, current, count) ==> r[k] == rows[k])
  {
    var b := CasBindings(id, current, count);
    Matches3(UpdateStateSearch, b);
    seq(|rows|, k requires 0 <= k < |rows| =>
      if Matches(rows[k], UpdateStateSearch, b) then CasWritten(rows[k], next, count) else rows[k])
  }

  /** The compare-and-set succeeds exactly when some row has the id, the expected state and the expected count. */
  lemma CasSucceedsIffMatch(rows: seq<TemplateStoreRef>, id: int, current: State, count: int)
    ensures |CasRows(rows, id, current, count)| > 0 <==> exists k :: 0 <= k < |rows| && CasMatch(rows[k], id, current, count)
  {
    var r := CasRows(rows, id, current, count);
    if |r| > 0 {
      assert r[0] in r;
    }
    if k :| 0 <= k < |rows| && CasMatch(rows[k], id, current, count) {
      assert rows[k] in r;
    }
  }

  /** A failed compare-and-set leaves the table as it was. */
  lemma CasFailureLeavesTable(rows: seq<TemplateStoreRef>, id: int, current: State, count: int, next: State)
    requires |CasRows(rows, id, current, count)| == 0
    ensures CasApply(rows, id, current, count, next) == rows
  {
    CasSucceedsIffMatch(rows, id, current, count);
    var r := CasApply(rows, id, current, count, next);
    assert forall k :: 0 <= k < |rows| ==> r[k] == rows[k];
  }

  /** On a table keyed by id, at most one row changes, and the keys stay unique. */
  lemma CasChangesOneRow(rows: seq<TemplateStoreRef>, id: int, current: State, count: int, next: State)
    requires UniqueIds(rows)
    ensures UniqueIds(CasApply(rows, id, current, count, next))
    ensures forall i, j :: 0 <= i < j < |rows| ==>
      CasApply(rows, id, current, count, next)[i] == rows[i] || CasApply(rows, id, current, count, next)[j] == rows[j]
  {
  }

  /**
   * Optimistic locking: once an update with a given count has succeeded, a second update
   * presented with the same stale count fails, on a table keyed by id.
   */
  lemma {:induction false} CasStaleRetryFails(rows: seq<TemplateStoreRef>, id: int, current: State, count: int,
                                              next: State, again: State)
    requires UniqueIds(rows)
    requires |CasRows(rows, id, current, count)| > 0
    ensures |CasRows(CasApply(rows, id, current, count, next), id, again, count)| == 0
  {
    var r := CasApply(rows, id, current, count, next);
    CasSucceedsIffMatch(rows, id, current, count);
    var k :| 0 <= k < |rows| && CasMatch(rows[k], id, current, count);
    forall m | 0 <= m < |r| ensures !CasMatch(r[m], id, again, count) {
      if m != k {
        assert rows[m].id != id;
      }
    }
    CasSucceedsIffMatch(r, id, again, count);
  }

  // ---------------------------------------------------------------- deletes

  /** What deletePrimaryRecordsForStore leaves: `storeSearch` with only `store_id` bound matches the store's every record. */
  function AfterStoreDelete(rows: seq<TemplateStoreRef>, storeId: int): (r: seq<TemplateStoreRef>)
    ensures forall x :: x in r <==> x in rows && x.storeId != storeId
    ensures multiset(r) + multiset(StoreRecords(rows, storeId)) == multiset(rows)
    ensures UniqueIds(rows) ==> UniqueIds(r)
  {
    StoreOnlyMatches(storeId);
    SelectRejectPartition(rows, StoreSearch, StoreOnly(storeId));
    RejectKeepsUniqueIds(rows, StoreSearch, StoreOnly(storeId));
    Reject(rows, StoreSearch, StoreOnly(storeId))
  }

  /** What deletePrimaryRecordsForTemplate leaves: `templateSearch` with only `template_id` bound. */
  function AfterTemplateDelete(rows: seq<TemplateStoreRef>, templateId: int): (r: seq<TemplateStoreRef>)
    ensures forall x :: x in r <==> x in rows && x.templateId != templateId
    ensures |r| <= |rows|
    ensures UniqueIds(rows) ==> UniqueIds(r)
  {
    var b := map[TemplateIdName := Int(templateId)];
    Matches2(TemplateSearch, b);
    RejectKeepsUniqueIds(rows, TemplateSearch, b);
    Reject(rows, TemplateSearch, b)
  }

  /** A delete by store removes the store's destroyed records as well as its live ones. */
  lemma {:induction false} StoreDeleteRemovesDestroyedToo(rows: seq<TemplateStoreRef>, storeId: int)
    ensures ListDestroyed(AfterStoreDelete(rows, storeId), storeId) == []
    ensures ListByStoreId(AfterStoreDelete(rows, storeId), storeId) == []
  {
    var r := AfterStoreDelete(rows, storeId);
    var d := ListDestroyed(r, storeId);
    var l := ListByStoreId(r, storeId);
    assert forall x :: x !in d;
    assert forall x :: x !in l;
    NoMemberEmpty(d);
    NoMemberEmpty(l);
  }

  // ---------------------------------------------------------------- updateStoreRoleToCachce

  /** The table after updateStoreRoleToCachce: the store's live records get role ImageCache. */
  function RoleToCache(rows: seq<TemplateStoreRef>, storeId: int): (r: seq<TemplateStoreRef>)
    ensures |r| == |rows|
    ensures forall k :: 0 <= k < |rows| ==>
      r[k] == rows[k].(role := r[k].role) &&
      r[k].role == (if rows[k].storeId == storeId && !rows[k].destroyed then ImageCache else rows[k].role)
    decreases |rows|
  {
    if rows == [] then []
    else
      var x := rows[0];
      [if x.storeId == storeId && !x.destroyed then x.(role := ImageCache) else x] + RoleToCache(rows[1..], storeId)
  }

  /** After the rewrite, the store's destroyed records are exactly as before (same rows, same order). */
  lemma {:induction false} RoleToCacheKeepsDestroyed(rows: seq<TemplateStoreRef>, storeId: int)
    ensures ListDestroyed(RoleToCache(rows, storeId), storeId) == ListDestroyed(rows, storeId)
    decreases |rows|
  {
    if rows != [] {
      var b := StoreAndDestroyed(storeId, true);
      StoreAndDestroyedMatches(storeId, true);
      RoleToCacheKeepsDestroyed(rows[1..], storeId);
      var r := RoleToCache(rows, storeId);
      assert r[1..] == RoleToCache(rows[1..], storeId);
      assert Matches(r[0], StoreSearch, b) <==> Matches(rows[0], StoreSearch, b);
      assert Matches(rows[0], StoreSearch, b) ==> r[0] == rows[0];
    }
  }

  /** After the rewrite, every live record of the store is an ImageCache record. */
  lemma RoleToCacheLiveAreCache(rows: seq<TemplateStoreRef>, storeId: int)
    ensures forall x :: x in ListByStoreId(RoleToCache(rows, storeId), storeId) ==> x.role == ImageCache
  {
    var r := RoleToCache(rows, storeId);
    forall x | x in ListByStoreId(r, storeId) ensures x.role == ImageCache {
      var k :| 0 <= k < |r| && r[k] == x;
    }
  }

  // ---------------------------------------------------------------- duplicateCacheRecordsOnRegionStore

  /** The records duplicateCacheRecordsOnRegionStore copies (`store_role` and `destroyed` bound only). */
  function CacheRecords(rows: seq<TemplateStoreRef>): (r: seq<TemplateStoreRef>)
    ensures forall x :: x in r <==> x in rows && x.role == ImageCache && !x.destroyed
  {
    var b := map[StoreRoleName := One(RoleValue(ImageCache)), DestroyedName := Bool(false)];
    Matches4(TemplateRoleSearch, b);
    Select(rows, TemplateRoleSearch, b)
  }

  /** `copy` carries over what the source copies from `orig`, with the reference count raised by one. */
  predicate CopiedFrom(copy: TemplateStoreRef, orig: TemplateStoreRef)
  {
    && copy.templateId == orig.templateId
    && copy.state == orig.state
    && copy.downloadPercent == orig.downloadPercent
    && copy.downloadState == orig.downloadState
    && copy.size == orig.size
    && copy.physicalSize == orig.physicalSize
    && copy.errorString == orig.errorString
    && copy.downloadUrl == orig.downloadUrl
    && copy.refCnt == orig.refCnt + 1
  }

  /**
   * The new record persisted for `orig` with the id the table assigns; fields the source
   * does not set keep the entity's defaults (no install path, live, update count 0).
   */
  function RegionCopy(orig: TemplateStoreRef, storeId: int, id: int): TemplateStoreRef
  {
    TemplateStoreRef(id, storeId, orig.templateId, Image, orig.state, orig.downloadState, orig.downloadPercent,
                     orig.size, orig.physicalSize, orig.errorString, orig.downloadUrl, None, orig.refCnt + 1,
                     false, 0)
  }

  /** The records persisted for `origs`, in order, with consecutive ids from `firstId`. */
  function RegionCopies(origs: seq<TemplateStoreRef>, storeId: int, firstId: int): (r: seq<TemplateStoreRef>)
    ensures |r| == |origs|
    ensures forall k :: 0 <= k < |origs| ==>
      CopiedFrom(r[k], origs[k]) && r[k].storeId == storeId && r[k].role == Image && r[k].id == firstId + k
      && !r[k].destroyed
  {
    seq(|origs|, k requires 0 <= k < |origs| => RegionCopy(origs[k], storeId, firstId + k))
  }

  /** Every live image-cache record gets exactly one copy, and every copy comes from one. */
  lemma OneCopyPerCacheRecord(rows: seq<TemplateStoreRef>, storeId: int, firstId: int)
    ensures var origs := CacheRecords(rows);
      var copies := RegionCopies(origs, storeId, firstId);
      |copies| == |origs| &&
      (forall x :: x in rows && x.role == ImageCache && !x.destroyed ==>
         exists k :: 0 <= k < |copies| && origs[k] == x && CopiedFrom(copies[k], x)) &&
      (forall c :: c in copies ==> exists x :: x in rows && x.role == ImageCache && !x.destroyed && CopiedFrom(c, x))
  {
    var origs := CacheRecords(rows);
    var copies := RegionCopies(origs, storeId, firstId);
    forall x | x in rows && x.role == ImageCache && !x.destroyed
      ensures exists k :: 0 <= k < |copies| && origs[k] == x && CopiedFrom(copies[k], x)
    {
      var k :| 0 <= k < |origs| && origs[k] == x;
      assert CopiedFrom(copies[k], x);
    }
    forall c | c in copies ensures exists x :: x in rows && x.role == ImageCache && !x.destroyed && CopiedFrom(c, x) {
      var k :| 0 <= k < |copies| && copies[k] == c;
      assert origs[k] in origs;
    }
  }

  /** Copies numbered from the table's next id keep the table keyed by id. */
  lemma RegionCopiesKeepIdsUnique(rows: seq<TemplateStoreRef>, origs: seq<TemplateStoreRef>, storeId: int, nextId: int)
    requires UniqueIds(rows)
    requires forall k :: 0 <= k < |rows| ==> rows[k].id < nextId
    ensures UniqueIds(rows + RegionCopies(origs, storeId, nextId))
  {
    var all := rows + RegionCopies(origs, storeId, nextId);
    forall i, j | 0 <= i < j < |all| ensures all[i].id != all[j].id {
      if j >= |rows| && i < |rows| {
        assert all[i].id < nextId <= all[j].id;
      }
    }
  }

  /** The template of the first copied record whose template cannot be found, if any. */
  function FirstMissingTemplate(origs: seq<TemplateStoreRef>, templateExists: int -> bool): (r: Option<int>)
    ensures r.None? <==> forall k :: 0 <= k < |origs| ==> templateExists(origs[k].templateId)
    ensures r.Some? ==> exists k :: 0 <= k < |origs| && origs[k].templateId == r.value && !templateExists(r.value)
                          && forall j :: 0 <= j < k ==> templateExists(origs[j].templateId)
  {
    if origs == [] then None
    else if !templateExists(origs[0].templateId) then Some(origs[0].templateId)
    else
      var rest := FirstMissingTemplate(origs[1..], templateExists);
      assert forall k :: 1 <= k < |origs| ==> origs[k] == origs[1..][k - 1];
      rest
  }

  /** How duplicateCacheRecordsOnRegionStore ends: normally, or with "No template is found for template id". */
  datatype Outcome = Completed | NoTemplateFound(templateId: int)

  // ---------------------------------------------------------------- the DAO

  /** The in-memory entity handed to `updateState`; only the fields `updateState` reads or writes. */
  class TemplateDataStoreObject {
    const id: int
    var updatedCount: int

    constructor (id: int, updatedCount: int)
      ensures this.id == id && this.updatedCount == updatedCount
    {
      this.id := id;
      this.updatedCount := updatedCount;
    }
  }

  /** The DAO over its table: the rows, and the id the next `persist` assigns. */
  class TemplateDataStoreDao {
    var rows: seq<TemplateStoreRef>
    var nextId: int

    ghost predicate Valid()
      reads this
    {
      UniqueIds(rows) && forall k :: 0 <= k < |rows| ==> rows[k].id < nextId
    }

    constructor ()
      ensures Valid() && rows == []
    {
      rows := [];
      nextId := 1;
    }

    /** GenericDaoBase.persist: insert with a fresh id. */
    method Persist(r: TemplateStoreRef) returns (id: int)
      requires Valid()
      modifies this
      ensures Valid()
      ensures id == old(nextId) && nextId == old(nextId) + 1
      ensures rows == old(rows) + [r.(id := id)]
    {
      id := nextId;
      rows := rows + [r.(id := id)];
      nextId := nextId + 1;
    }

    /**
     * updateState: the object's count is raised by one whatever happens; the row is
     * updated only when its id, state and count still match, and the result says whether
     * a row was updated.
     */
    method UpdateState(currentState: State, nextState: State, obj: TemplateDataStoreObject) returns (ok: bool)
      requires Valid()
      modifies this, obj
      ensures Valid() && nextId == old(nextId)
      ensures obj.updatedCount == old(obj.updatedCount) + 1
      ensures ok <==> exists k :: 0 <= k < |old(rows)| && CasMatch(old(rows)[k], obj.id, currentState, old(obj.updatedCount))
      ensures rows == CasApply(old(rows), obj.id, currentState, old(obj.updatedCount), nextState)
      ensures !ok ==> rows == old(rows)
    {
      var oldUpdated := obj.updatedCount;
      obj.updatedCount := obj.updatedCount + 1;
      var affected := CasRows(rows, obj.id, currentState, oldUpdated);
      CasSucceedsIffMatch(rows, obj.id, currentState, oldUpdated);
      CasChangesOneRow(rows, obj.id, currentState, oldUpdated, nextState);
      if |affected| == 0 {
        CasFailureLeavesTable(rows, obj.id, currentState, oldUpdated, nextState);
      }
      rows := CasApply(rows, obj.id, currentState, oldUpdated, nextState);
      ok := |affected| > 0;
    }

    /** deletePrimaryRecordsForStore. */
    method DeletePrimaryRecordsForStore(storeId: int)
      requires Valid()
      modifies this
      ensures Valid() && nextId == old(nextId)
      ensures rows == AfterStoreDelete(old(rows), storeId)
    {
      ghost var was := rows;
      rows := AfterStoreDelete(rows, storeId);
      SubsequenceKeepsIds(was, rows, nextId);
    }

    /** deletePrimaryRecordsForTemplate. */
    method DeletePrimaryRecordsForTemplate(templateId: int)
      requires Valid()
      modifies this
      ensures Valid() && nextId == old(nextId)
      ensures rows == AfterTemplateDelete(old(rows), templateId)
    {
      ghost var was := rows;
      rows := AfterTemplateDelete(rows, templateId);
      SubsequenceKeepsIds(was, rows, nextId);
    }

    /** updateStoreRoleToCachce: list the store's live records, then update each by id. */
    method UpdateStoreRoleToCache(storeId: int)
      requires Valid()
      modifies this
      ensures Valid() && nextId == old(nextId)
      ensures rows == RoleToCache(old(rows), storeId)
    {
      var tmpls := ListByStoreId(rows, storeId);
      ghost var rows0, n := rows, nextId;
      assert UniqueIds(rows0) && forall k :: 0 <= k < |rows0| ==> rows0[k].id < n;
      var i := 0;
      while i < |tmpls|
        invariant 0 <= i <= |tmpls|
        invariant nextId == n
        invariant RoleLoopInv(rows0, rows, tmpls, i)
      {
        RoleLoopStep(rows0, rows, tmpls, i);
        rows := SetRoleById(rows, tmpls[i].id, ImageCache);
        i := i + 1;
      }
      RoleLoopDone(rows0, rows, storeId, tmpls, nextId);
    }

    /**
     * duplicateCacheRecordsOnRegionStore: persist one copy per live image-cache record,
     * then look up each record's template, stopping at the first one that is missing.
     * All copies are in the table before that failure.
     */
    method DuplicateCacheRecordsOnRegionStore(storeId: int, templateExists: int -> bool) returns (outcome: Outcome)
      requires Valid()
      modifies this
      ensures Valid()
      ensures rows == old(rows) + RegionCopies(CacheRecords(old(rows)), storeId, old(nextId))
      ensures nextId == old(nextId) + |CacheRecords(old(rows))|
      ensures outcome.NoTemplateFound? <==> FirstMissingTemplate(CacheRecords(old(rows)), templateExists).Some?
      ensures outcome.NoTemplateFound? ==> outcome.templateId == FirstMissingTemplate(CacheRecords(old(rows)), templateExists).value
    {
      var tmpls := CacheRecords(rows);
      ghost var rows0, first := rows, nextId;
      var i := 0;
      while i < |tmpls|
        invariant 0 <= i <= |tmpls|
        invariant nextId == first + i
        invariant rows == rows0 + RegionCopies(tmpls[..i], storeId, first)
        invariant Valid()
      {
        var ts := RegionCopy(tmpls[i], storeId, 0);
        var id := Persist(ts);
        RegionCopiesSnoc(tmpls, storeId, first, i);
        assert ts.(id := id) == RegionCopy(tmpls[i], storeId, first + i);
        i := i + 1;
      }
      assert tmpls[..i] == tmpls;
      var missing := FindMissingTemplate(tmpls, templateExists);
      outcome := if missing.Some? then NoTemplateFound(missing.value) else Completed;
    }
  }

  /** The second loop of duplicateCacheRecordsOnRegionStore: look up each record's template in turn. */
  method FindMissingTemplate(tmpls: seq<TemplateStoreRef>, templateExists: int -> bool) returns (r: Option<int>)
    ensures r == FirstMissingTemplate(tmpls, templateExists)
  {
    var j := 0;
    while j < |tmpls|
      invariant 0 <= j <= |tmpls|
      invariant forall m :: 0 <= m < j ==> templateExists(tmpls[m].templateId)
    {
      if !templateExists(tmpls[j].templateId) {
        FirstMissingIsFirst(tmpls, templateExists, j);
        return Some(tmpls[j].templateId);
      }
      j := j + 1;
    }
    return None;
  }

  // ---------------------------------------------------------------- helpers for the proofs above

  /** `update(id, entity)` after `setDataStoreRole`: the row with that id gets the role. */
  function SetRoleById(rows: seq<TemplateStoreRef>, id: int, role: Role): (r: seq<TemplateStoreRef>)
    ensures |r| == |rows|
    ensures forall k :: 0 <= k < |rows| ==> r[k] == if rows[k].id == id then rows[k].(role := role) else rows[k]
  {
    seq(|rows|, k requires 0 <= k < |rows| => if rows[k].id == id then rows[k].(role := role) else rows[k])
  }

  predicate ListedBefore(tmpls: seq<TemplateStoreRef>, i: int, id: int)
    requires 0 <= i <= |tmpls|
  {
    exists j :: 0 <= j < i && tmpls[j].id == id
  }

  ghost predicate RoleLoopInv(rows0: seq<TemplateStoreRef>, rows: seq<TemplateStoreRef>, tmpls: seq<TemplateStoreRef>, i: int)
    requires 0 <= i <= |tmpls|
  {
    |rows| == |rows0| &&
    forall k :: 0 <= k < |rows| ==>
      rows[k] == if ListedBefore(tmpls, i, rows0[k].id) then rows0[k].(role := ImageCache) else rows0[k]
  }

  lemma RoleLoopStep(rows0: seq<TemplateStoreRef>, rows: seq<TemplateStoreRef>, tmpls: seq<TemplateStoreRef>, i: int)
    requires 0 <= i < |tmpls|
    requires RoleLoopInv(rows0, rows, tmpls, i)
    ensures RoleLoopInv(rows0, SetRoleById(rows, tmpls[i].id, ImageCache), tmpls, i + 1)
  {
    var next := SetRoleById(rows, tmpls[i].id, ImageCache);
    forall k | 0 <= k < |next|
      ensures next[k] == if ListedBefore(tmpls, i + 1, rows0[k].id) then rows0[k].(role := ImageCache) else rows0[k]
    {
      assert rows[k].id == rows0[k].id;
      if rows0[k].id == tmpls[i].id {
        assert ListedBefore(tmpls, i + 1, rows0[k].id);
      } else if ListedBefore(tmpls, i + 1, rows0[k].id) {
        var j :| 0 <= j < i + 1 && tmpls[j].id == rows0[k].id;
        assert ListedBefore(tmpls, i, rows0[k].id);
      } else {
        assert !ListedBefore(tmpls, i, rows0[k].id);
      }
    }
  }

  lemma RoleLoopDone(rows0: seq<TemplateStoreRef>, rows: seq<TemplateStoreRef>, storeId: int,
                     tmpls: seq<TemplateStoreRef>, nextId: int)
    requires UniqueIds(rows0) && forall k :: 0 <= k < |rows0| ==> rows0[k].id < nextId
    requires tmpls == ListByStoreId(rows0, storeId)
    requires RoleLoopInv(rows0, rows, tmpls, |tmpls|)
    ensures rows == RoleToCache(rows0, storeId)
    ensures UniqueIds(rows) && forall k :: 0 <= k < |rows| ==> rows[k].id < nextId
  {
    ListedExactlyLive(rows0, storeId, tmpls);
    var target := RoleToCache(rows0, storeId);
    forall k | 0 <= k < |rows| ensures rows[k] == target[k] && rows[k].id == rows0[k].id {
    }
  }

  lemma RegionCopiesSnoc(origs: seq<TemplateStoreRef>, storeId: int, first: int, i: int)
    requires 0 <= i < |origs|
    ensures RegionCopies(origs[..i + 1], storeId, first)
         == RegionCopies(origs[..i], storeId, first) + [RegionCopy(origs[i], storeId, first + i)]
  {
    var a := RegionCopies(origs[..i + 1], storeId, first);
    var c := RegionCopies(origs[..i], storeId, first) + [RegionCopy(origs[i], storeId, first + i)];
    forall k | 0 <= k < |a| ensures a[k] == c[k] {
      if k < i {
        assert origs[..i + 1][k] == origs[..i][k];
      }
    }
  }

  lemma ListedExactlyLive(rows: seq<TemplateStoreRef>, storeId: int, tmpls: seq<TemplateStoreRef>)
    requires UniqueIds(rows)
    requires tmpls == ListByStoreId(rows, storeId)
    ensures forall k :: 0 <= k < |rows| ==>
      (ListedBefore(tmpls, |tmpls|, rows[k].id) <==> rows[k].storeId == storeId && !rows[k].destroyed)
  {
    forall k | 0 <= k < |rows|
      ensures ListedBefore(tmpls, |tmpls|, rows[k].id) <==> rows[k].storeId == storeId && !rows[k].destroyed
    {
      if ListedBefore(tmpls, |tmpls|, rows[k].id) {
        var j :| 0 <= j < |tmpls| && tmpls[j].id == rows[k].id;
        assert tmpls[j] in tmpls;
        var m :| 0 <= m < |rows| && rows[m] == tmpls[j];
        assert m == k;
      }
      if rows[k].storeId == storeId && !rows[k].destroyed {
        assert rows[k] in tmpls;
        var j :| 0 <= j < |tmpls| && tmpls[j] == rows[k];
        assert ListedBefore(tmpls, |tmpls|, rows[k].id);
      }
    }
  }

  lemma NoMemberEmpty(s: seq<TemplateStoreRef>)
    requires forall x :: x !in s
    ensures s == []
  {
    if s != [] {
      FirstIsMember(s);
      assert false;
    }
  }

  lemma FirstIsMember(s: seq<TemplateStoreRef>)
    requires |s| > 0
    ensures s[0] in s
  {
  }

  lemma SubsequenceKeepsIds(was: seq<TemplateStoreRef>, now: seq<TemplateStoreRef>, nextId: int)
    requires UniqueIds(was) && forall k :: 0 <= k < |was| ==> was[k].id < nextId
    requires forall x :: x in now ==> x in was
    requires |now| <= |was|
    ensures forall k :: 0 <= k < |now| ==> now[k].id < nextId
  {
    forall k | 0 <= k < |now| ensures now[k].id < nextId {
      assert now[k] in was;
    }
  }

  lemma FirstMissingIsFirst(origs: seq<TemplateStoreRef>, templateExists: int -> bool, j: int)
    requires 0 <= j < |origs| && !templateExists(origs[j].templateId)
    requires forall m :: 0 <= m < j ==> templateExists(origs[m].templateId)
    ensures FirstMissingTemplate(origs, templateExists) == Some(origs[j].templateId)
    decreases j
  {
    if j > 0 {
      FirstMissingIsFirst(origs[1..], templateExists, j - 1);
    }
  }
}
