/**
 * The `template_store_ref` table as TemplateDataStoreDaoImpl sees it: one record per
 * (template, data store) pair, and the meaning of the SearchBuilder filters the DAO
 * defines in `configure`.
 *
 * A SearchBuilder is a conjunction of named conditions.  A caller binds some of the
 * names; a condition whose name is left unbound is dropped from the WHERE clause.
 * This is what makes `listOnCache` return destroyed records and the deletes remove
 * destroyed and live records alike.
 */
module TemplateStoreRecords {
  import opened Options

  /** DataStoreRole. */
  datatype Role = Primary | Image | ImageCache | Backup

  /** ObjectInDataStoreStateMachine.State: only Ready and Destroyed are named by the DAO. */
  datatype State = Ready | Destroyed | OtherState(name: string)

  /** VMTemplateStorageResourceAssoc.Status, compared only for equality. */
  datatype DownloadStatus = DownloadStatus(name: string)

  /** One row of the table (TemplateDataStoreVO), the fields the DAO reads or writes. */
  datatype TemplateStoreRef = TemplateStoreRef(
    id: int,
    storeId: int,
    templateId: int,
    role: Role,
    state: State,
    downloadState: DownloadStatus,
    downloadPercent: int,
    size: int,
    physicalSize: int,
    errorString: string,
    downloadUrl: string,
    installPath: Option<string>,
    refCnt: int,
    destroyed: bool,
    updatedCount: int)

  /** The columns the DAO's filters mention. */
  datatype Field =
    | IdField | StoreIdField | TemplateIdField | DestroyedField | RefCntField
    | RoleField | StateField | DownloadStateField | UpdatedCountField

  datatype Value =
    | IntValue(i: int)
    | BoolValue(b: bool)
    | RoleValue(r: Role)
    | StateValue(s: State)
    | StatusValue(d: DownloadStatus)

  datatype Op = EQ | NEQ | IN

  /** The parameter names the filters declare, one constructor per name. */
  datatype ParamName =
    | IdName | StoreIdName | TemplateIdName | DestroyedName | RefCntName
    | StoreRoleName | StateName | StatesName | DownloadStateName | UpdatedCountName

  /** The name as the DAO spells it in `sb.and(...)` and `sc.setParameters(...)`. */
  function NameText(n: ParamName): string
  {
    match n
    case IdName => "id"
    case StoreIdName => "store_id"
    case TemplateIdName => "template_id"
    case DestroyedName => "destroyed"
    case RefCntName => "ref_cnt"
    case StoreRoleName => "store_role"
    case StateName => "state"
    case StatesName => "states"
    case DownloadStateName => "downloadState"
    case UpdatedCountName => "updatedCount"
  }

  /** `sb.and(name, column, op)`. */
  datatype Condition = Condition(name: ParamName, field: Field, op: Op)

  /** What `sc.setParameters(name, ...)` binds: one value, or the array of an IN. */
  datatype Param = One(v: Value) | Many(vs: seq<Value>)

  type SearchBuilder = seq<Condition>
  type Bindings = map<ParamName, Param>

  function FieldOf(r: TemplateStoreRef, f: Field): Value
  {
    match f
    case IdField => IntValue(r.id)
    case StoreIdField => IntValue(r.storeId)
    case TemplateIdField => IntValue(r.templateId)
    case DestroyedField => BoolValue(r.destroyed)
    case RefCntField => IntValue(r.refCnt)
    case RoleField => RoleValue(r.role)
    case StateField => StateValue(r.state)
    case DownloadStateField => StatusValue(r.downloadState)
    case UpdatedCountField => IntValue(r.updatedCount)
  }

  /** A condition holds when its name is unbound, or when the bound value satisfies it. */
  predicate Holds(r: TemplateStoreRef, c: Condition, b: Bindings)
  {
    c.name !in b ||
    match (c.op, b[c.name])
    case (EQ, One(v)) => FieldOf(r, c.field) == v
    case (NEQ, One(v)) => FieldOf(r, c.field) != v
    case (IN, Many(vs)) => FieldOf(r, c.field) in vs
    case _ => false
  }

  predicate Matches(r: TemplateStoreRef, sb: SearchBuilder, b: Bindings)
  {
    forall i :: 0 <= i < |sb| ==> Holds(r, sb[i], b)
  }

  // A search builder of two, three or four conditions matches when each of them holds.

  lemma Matches2(sb: SearchBuilder, b: Bindings)
    requires |sb| == 2
    ensures forall x :: Matches(x, sb, b) <==> Holds(x, sb[0], b) && Holds(x, sb[1], b)
  {
    forall x | Holds(x, sb[0], b) && Holds(x, sb[1], b) ensures Matches(x, sb, b) {
      forall i | 0 <= i < |sb| ensures Holds(x, sb[i], b) { assert i == 0 || i == 1; }
    }
  }

  lemma Matches3(sb: SearchBuilder, b: Bindings)
    requires |sb| == 3
    ensures forall x :: Matches(x, sb, b) <==> Holds(x, sb[0], b) && Holds(x, sb[1], b) && Holds(x, sb[2], b)
  {
    forall x | Holds(x, sb[0], b) && Holds(x, sb[1], b) && Holds(x, sb[2], b) ensures Matches(x, sb, b) {
      forall i | 0 <= i < |sb| ensures Holds(x, sb[i], b) { assert i == 0 || i == 1 || i == 2; }
    }
  }

  lemma Matches4(sb: SearchBuilder, b: Bindings)
    requires |sb| == 4
    ensures forall x :: Matches(x, sb, b) <==>
      Holds(x, sb[0], b) && Holds(x, sb[1], b) && Holds(x, sb[2], b) && Holds(x, sb[3], b)
  {
    forall x | Holds(x, sb[0], b) && Holds(x, sb[1], b) && Holds(x, sb[2], b) && Holds(x, sb[3], b)
      ensures Matches(x, sb, b)
    {
      forall i | 0 <= i < |sb| ensures Holds(x, sb[i], b) { assert i == 0 || i == 1 || i == 2 || i == 3; }
    }
  }

  /** The rows a search returns, in table order. */
  function Select(rows: seq<TemplateStoreRef>, sb: SearchBuilder, b: Bindings): (res: seq<TemplateStoreRef>)
    ensures forall x :: x in res <==> x in rows && Matches(x, sb, b)
    ensures |res| <= |rows|
  {
    if rows == [] then []
    else (if Matches(rows[0], sb, b) then [rows[0]] else []) + Select(rows[1..], sb, b)
  }

  /** The rows a delete by the same search leaves in place, in table order. */
  function Reject(rows: seq<TemplateStoreRef>, sb: SearchBuilder, b: Bindings): (res: seq<TemplateStoreRef>)
    ensures forall x :: x in res <==> x in rows && !Matches(x, sb, b)
    ensures |res| <= |rows|
  {
    if rows == [] then []
    else (if Matches(rows[0], sb, b) then [] else [rows[0]]) + Reject(rows[1..], sb, b)
  }

  /** `findOneIncludingRemovedBy`: the first row of the search, or null. */
  function FindOne(rows: seq<TemplateStoreRef>, sb: SearchBuilder, b: Bindings): (r: Option<TemplateStoreRef>)
    ensures r.None? <==> forall x :: x in rows ==> !Matches(x, sb, b)
    ensures r.Some? ==> r.value in rows && Matches(r.value, sb, b)
  {
    var s := Select(rows, sb, b);
    if s == [] then None else assert s[0] in s; Some(s[0])
  }

  /** A search keeps table order: searching a concatenation concatenates the searches. */
  lemma {:induction false} SelectAppend(a: seq<TemplateStoreRef>, c: seq<TemplateStoreRef>, sb: SearchBuilder, b: Bindings)
    ensures Select(a + c, sb, b) == Select(a, sb, b) + Select(c, sb, b)
  {
    if a == [] {
      assert a + c == c;
    } else {
      assert (a + c)[1..] == a[1..] + c;
      SelectAppend(a[1..], c, sb, b);
    }
  }

  /** A search and the delete by the same search split the table between them. */
  lemma {:induction false} SelectRejectPartition(rows: seq<TemplateStoreRef>, sb: SearchBuilder, b: Bindings)
    ensures multiset(Select(rows, sb, b)) + multiset(Reject(rows, sb, b)) == multiset(rows)
  {
    if rows != [] {
      var x, t := rows[0], rows[1..];
      SelectRejectPartition(t, sb, b);
      var m := Matches(x, sb, b);
      assert rows == [x] + t;
      assert Select(rows, sb, b) == (if m then [x] else []) + Select(t, sb, b);
      assert Reject(rows, sb, b) == (if m then [] else [x]) + Reject(t, sb, b);
      PartitionStep(x, t, Select(t, sb, b), Reject(t, sb, b), m);
    }
  }

  lemma PartitionStep(x: TemplateStoreRef, t: seq<TemplateStoreRef>, s: seq<TemplateStoreRef>, r: seq<TemplateStoreRef>, m: bool)
    requires multiset(s) + multiset(r) == multiset(t)
    ensures multiset((if m then [x] else []) + s) + multiset((if m then [] else [x]) + r) == multiset([x] + t)
  {
  }

  /**
   * When one search's bindings are split into two by a column (live and dead), the two
   * searches return between them each row of the unsplit search exactly once.
   */
  lemma {:induction false} SelectSplit(rows: seq<TemplateStoreRef>, sb: SearchBuilder, all: Bindings, one: Bindings, other: Bindings)
    requires forall x :: Matches(x, sb, one) ==> Matches(x, sb, all)
    requires forall x :: Matches(x, sb, other) ==> Matches(x, sb, all)
    requires forall x :: Matches(x, sb, all) ==> Matches(x, sb, one) != Matches(x, sb, other)
    ensures multiset(Select(rows, sb, one)) + multiset(Select(rows, sb, other)) == multiset(Select(rows, sb, all))
  {
    if rows != [] {
      var x, t := rows[0], rows[1..];
      SelectSplit(t, sb, all, one, other);
      var sOne, sOther, sAll := Select(t, sb, one), Select(t, sb, other), Select(t, sb, all);
      var mAll, mOne, mOther := Matches(x, sb, all), Matches(x, sb, one), Matches(x, sb, other);
      assert Select(rows, sb, all) == (if mAll then [x] else []) + sAll;
      assert Select(rows, sb, one) == (if mOne then [x] else []) + sOne;
      assert Select(rows, sb, other) == (if mOther then [x] else []) + sOther;
      SplitStep(x, sOne, sOther, sAll, mOne, mOther, mAll);
    }
  }

  lemma SplitStep(x: TemplateStoreRef, sOne: seq<TemplateStoreRef>, sOther: seq<TemplateStoreRef>, sAll: seq<TemplateStoreRef>,
                  mOne: bool, mOther: bool, mAll: bool)
    requires multiset(sOne) + multiset(sOther) == multiset(sAll)
    requires (mOne ==> mAll) && (mOther ==> mAll) && (mAll ==> mOne != mOther)
    ensures multiset((if mOne then [x] else []) + sOne) + multiset((if mOther then [x] else []) + sOther)
         == multiset((if mAll then [x] else []) + sAll)
  {
  }

  /** No two rows share an id (the table's primary key). */
  predicate UniqueIds(rows: seq<TemplateStoreRef>)
  {
    forall i, j :: 0 <= i < j < |rows| ==> rows[i].id != rows[j].id
  }

  /** Removing rows keeps a table keyed by id. */
  lemma {:induction false} RejectKeepsUniqueIds(rows: seq<TemplateStoreRef>, sb: SearchBuilder, b: Bindings)
    ensures UniqueIds(rows) ==> UniqueIds(Reject(rows, sb, b))
    decreases |rows|
  {
    if rows != [] && UniqueIds(rows) {
      var x, t := rows[0], rows[1..];
      UniqueTail(rows);
      RejectKeepsUniqueIds(t, sb, b);
      var rest := Reject(t, sb, b);
      if !Matches(x, sb, b) {
        forall y | y in rest ensures y.id != x.id {
          UniqueHeadDiffers(rows, y);
        }
        UniqueCons(x, rest);
        assert Reject(rows, sb, b) == [x] + rest;
      }
    }
  }

  lemma UniqueTail(rows: seq<TemplateStoreRef>)
    requires rows != [] && UniqueIds(rows)
    ensures UniqueIds(rows[1..])
  {
    assert forall k :: 0 <= k < |rows| - 1 ==> rows[1..][k] == rows[k + 1];
  }

  lemma UniqueHeadDiffers(rows: seq<TemplateStoreRef>, y: TemplateStoreRef)
    requires rows != [] && UniqueIds(rows) && y in rows[1..]
    ensures y.id != rows[0].id
  {
    var k :| 0 <= k < |rows[1..]| && rows[1..][k] == y;
    assert rows[k + 1] == y;
  }

  lemma UniqueCons(x: TemplateStoreRef, rest: seq<TemplateStoreRef>)
    requires UniqueIds(rest) && forall y :: y in rest ==> y.id != x.id
    ensures UniqueIds([x] + rest)
  {
    var res := [x] + rest;
    forall i, j | 0 <= i < j < |res| ensures res[i].id != res[j].id {
      assert res[j] == rest[j - 1];
      if i > 0 {
        assert res[i] == rest[i - 1];
      } else {
        assert rest[j - 1] in rest;
      }
    }
  }

  // The filters built in `configure`.

  const StoreSearch: SearchBuilder :=
    [Condition(StoreIdName, StoreIdField, EQ), Condition(DestroyedName, DestroyedField, EQ)]

  const CacheSearch: SearchBuilder :=
    [Condition(StoreIdName, StoreIdField, EQ), Condition(DestroyedName, DestroyedField, EQ),
     Condition(RefCntName, RefCntField, NEQ)]

  const TemplateSearch: SearchBuilder :=
    [Condition(TemplateIdName, TemplateIdField, EQ), Condition(DestroyedName, DestroyedField, EQ)]

  const TemplateRoleSearch: SearchBuilder :=
    [Condition(TemplateIdName, TemplateIdField, EQ), Condition(StoreRoleName, RoleField, EQ),
     Condition(DestroyedName, DestroyedField, EQ), Condition(StateName, StateField, EQ)]

  const UpdateStateSearch: SearchBuilder :=
    [Condition(IdName, IdField, EQ), Condition(StateName, StateField, EQ),
     Condition(UpdatedCountName, UpdatedCountField, EQ)]

  /** The second definition in `configure`, which replaces the first (same three conditions). */
  const StoreTemplateSearch: SearchBuilder :=
    [Condition(StoreIdName, StoreIdField, EQ), Condition(TemplateIdName, TemplateIdField, EQ),
     Condition(DestroyedName, DestroyedField, EQ)]

  const StoreTemplateStateSearch: SearchBuilder :=
    [Condition(TemplateIdName, TemplateIdField, EQ), Condition(StoreIdName, StoreIdField, EQ),
     Condition(StatesName, StateField, IN), Condition(DestroyedName, DestroyedField, EQ)]

  const StoreTemplateDownloadStatusSearch: SearchBuilder :=
    [Condition(TemplateIdName, TemplateIdField, EQ), Condition(StoreIdName, StoreIdField, EQ),
     Condition(DownloadStateName, DownloadStateField, IN), Condition(DestroyedName, DestroyedField, EQ)]

  function StateValues(states: seq<State>): (vs: seq<Value>)
    ensures forall s :: StateValue(s) in vs <==> s in states
  {
    if states == [] then [] else [StateValue(states[0])] + StateValues(states[1..])
  }

  function StatusValues(status: seq<DownloadStatus>): (vs: seq<Value>)
    ensures forall d :: StatusValue(d) in vs <==> d in status
  {
    if status == [] then [] else [StatusValue(status[0])] + StatusValues(status[1..])
  }
}
