/**
 * The read-only operations of TemplateDataStoreDaoImpl: each `list*`/`find*` is a search
 * (TemplateStoreRecords.Select / FindOne) with the parameters the method binds, and its
 * contract says which rows that search returns.  The zone-wide lookups iterate over the
 * store list the data-store manager returns; that list is an input here.
 */
module TemplateStoreQueries {
  import opened Options
  import opened TemplateStoreRecords

  function Int(i: int): Param { One(IntValue(i)) }
  function Bool(b: bool): Param { One(BoolValue(b)) }

  /** `storeSearch` with only `store_id` bound. */
  function StoreOnly(storeId: int): Bindings
  {
    map[StoreIdName := Int(storeId)]
  }

  /** With `destroyed` unbound, `storeSearch` matches the store's every record. */
  lemma StoreOnlyMatches(storeId: int)
    ensures forall x :: Matches(x, StoreSearch, StoreOnly(storeId)) <==> x.storeId == storeId
  {
    Matches2(StoreSearch, StoreOnly(storeId));
  }

  /** The store's records whatever their `destroyed` flag. */
  function StoreRecords(rows: seq<TemplateStoreRef>, storeId: int): (r: seq<TemplateStoreRef>)
    ensures forall x :: x in r <==> x in rows && x.storeId == storeId
  {
    StoreOnlyMatches(storeId);
    Select(rows, StoreSearch, StoreOnly(storeId))
  }

  /** `storeSearch` with both `store_id` and `destroyed` bound. */
  function StoreAndDestroyed(storeId: int, destroyed: bool): Bindings
  {
    map[StoreIdName := Int(storeId), DestroyedName := Bool(destroyed)]
  }

  lemma StoreAndDestroyedMatches(storeId: int, destroyed: bool)
    ensures forall x :: Matches(x, StoreSearch, StoreAndDestroyed(storeId, destroyed)) <==>
      x.storeId == storeId && x.destroyed == destroyed
  {
    Matches2(StoreSearch, StoreAndDestroyed(storeId, destroyed));
  }

  /** listByStoreId. */
  function ListByStoreId(rows: seq<TemplateStoreRef>, storeId: int): (r: seq<TemplateStoreRef>)
    ensures forall x :: x in r <==> x in rows && x.storeId == storeId && !x.destroyed
  {
    StoreAndDestroyedMatches(storeId, false);
    Select(rows, StoreSearch, StoreAndDestroyed(storeId, false))
  }

  /** listDestroyed. */
  function ListDestroyed(rows: seq<TemplateStoreRef>, storeId: int): (r: seq<TemplateStoreRef>)
    ensures forall x :: x in r <==> x in rows && x.storeId == storeId && x.destroyed
  {
    StoreAndDestroyedMatches(storeId, true);
    Select(rows, StoreSearch, StoreAndDestroyed(storeId, true))
  }

  /** listActiveOnCache: live records of the store that something still references. */
  function ListActiveOnCache(rows: seq<TemplateStoreRef>, storeId: int): (r: seq<TemplateStoreRef>)
    ensures forall x :: x in r <==> x in rows && x.storeId == storeId && !x.destroyed && x.refCnt != 0
  {
    var b := map[StoreIdName := Int(storeId), DestroyedName := Bool(false), RefCntName := Int(0)];
    Matches3(CacheSearch, b);
    Select(rows, CacheSearch, b)
  }

  /**
   * listByStoreId and listDestroyed split the store's records by the `destroyed` flag:
   * together they hold each of the store's records exactly once.
   */
  lemma {:induction false} StoreListingsPartition(rows: seq<TemplateStoreRef>, storeId: int)
    ensures multiset(ListByStoreId(rows, storeId)) + multiset(ListDestroyed(rows, storeId))
            == multiset(StoreRecords(rows, storeId))
  {
    StoreOnlyMatches(storeId);
    StoreAndDestroyedMatches(storeId, false);
    StoreAndDestroyedMatches(storeId, true);
    SelectSplit(rows, StoreSearch, StoreOnly(storeId), StoreAndDestroyed(storeId, false), StoreAndDestroyed(storeId, true));
  }

  /** listByTemplateStore. */
  function ListByTemplateStore(rows: seq<TemplateStoreRef>, templateId: int, storeId: int): (r: seq<TemplateStoreRef>)
    ensures forall x :: x in r <==> x in rows && x.templateId == templateId && x.storeId == storeId && !x.destroyed
  {
    var b := map[TemplateIdName := Int(templateId), StoreIdName := Int(storeId), DestroyedName := Bool(false)];
    Matches3(StoreTemplateSearch, b);
    Select(rows, StoreTemplateSearch, b)
  }

  /** listByTemplateStoreStatus: additionally the state must be one of `states`. */
  function ListByTemplateStoreStatus(rows: seq<TemplateStoreRef>, templateId: int, storeId: int, states: seq<State>)
    : (r: seq<TemplateStoreRef>)
    ensures forall x :: x in r <==>
      x in rows && x.templateId == templateId && x.storeId == storeId && !x.destroyed && x.state in states
  {
    var b := map[TemplateIdName := Int(templateId), StoreIdName := Int(storeId), StatesName := Many(StateValues(states)), DestroyedName := Bool(false)];
    Matches4(StoreTemplateStateSearch, b);
    Select(rows, StoreTemplateStateSearch, b)
  }

  /** listByTemplateStoreDownloadStatus: additionally the download state must be one of `status`. */
  function ListByTemplateStoreDownloadStatus(rows: seq<TemplateStoreRef>, templateId: int, storeId: int,
                                             status: seq<DownloadStatus>): (r: seq<TemplateStoreRef>)
    ensures forall x :: x in r <==>
      x in rows && x.templateId == templateId && x.storeId == storeId && !x.destroyed && x.downloadState in status
  {
    var b := map[TemplateIdName := Int(templateId), StoreIdName := Int(storeId), DownloadStateName := Many(StatusValues(status)), DestroyedName := Bool(false)];
    Matches4(StoreTemplateDownloadStatusSearch, b);
    Select(rows, StoreTemplateDownloadStatusSearch, b)
  }

  /** findByStoreTemplate (the variant without a row lock). */
  function FindByStoreTemplate(rows: seq<TemplateStoreRef>, storeId: int, templateId: int): (r: Option<TemplateStoreRef>)
    ensures r.Some? ==> r.value in rows && r.value.storeId == storeId && r.value.templateId == templateId && !r.value.destroyed
    ensures r.None? <==> forall x :: x in rows ==> !(x.storeId == storeId && x.templateId == templateId && !x.destroyed)
  {
    var b := map[StoreIdName := Int(storeId), TemplateIdName := Int(templateId), DestroyedName := Bool(false)];
    Matches3(StoreTemplateSearch, b);
    FindOne(rows, StoreTemplateSearch, b)
  }

  /** findByTemplate: a live record of the template in a store of the given role, in any state. */
  function FindByTemplate(rows: seq<TemplateStoreRef>, templateId: int, role: Role): (r: Option<TemplateStoreRef>)
    ensures r.Some? ==> r.value in rows && r.value.templateId == templateId && r.value.role == role && !r.value.destroyed
    ensures r.None? <==> forall x :: x in rows ==> !(x.templateId == templateId && x.role == role && !x.destroyed)
  {
    var b := map[TemplateIdName := Int(templateId), StoreRoleName := One(RoleValue(role)), DestroyedName := Bool(false)];
    Matches4(TemplateRoleSearch, b);
    FindOne(rows, TemplateRoleSearch, b)
  }

  /** findReadyOnCache: a live, Ready record of the template on an image cache. */
  function FindReadyOnCache(rows: seq<TemplateStoreRef>, templateId: int): (r: Option<TemplateStoreRef>)
    ensures r.Some? ==> r.value in rows && r.value.templateId == templateId && r.value.role == ImageCache
                        && !r.value.destroyed && r.value.state == Ready
    ensures r.None? <==> forall x :: x in rows ==>
      !(x.templateId == templateId && x.role == ImageCache && !x.destroyed && x.state == Ready)
  {
    var b := map[TemplateIdName := Int(templateId), StoreRoleName := One(RoleValue(ImageCache)), DestroyedName := Bool(false), StateName := One(StateValue(Ready))];
    Matches4(TemplateRoleSearch, b);
    FindOne(rows, TemplateRoleSearch, b)
  }

  /**
   * listOnCache binds neither `destroyed` nor `state`: every image-cache record of the
   * template, destroyed ones included.
   */
  function ListOnCache(rows: seq<TemplateStoreRef>, templateId: int): (r: seq<TemplateStoreRef>)
    ensures forall x :: x in r <==> x in rows && x.templateId == templateId && x.role == ImageCache
  {
    var b := map[TemplateIdName := Int(templateId), StoreRoleName := One(RoleValue(ImageCache))];
    Matches4(TemplateRoleSearch, b);
    Select(rows, TemplateRoleSearch, b)
  }

  /** listByTemplate. */
  function ListByTemplate(rows: seq<TemplateStoreRef>, templateId: int): (r: seq<TemplateStoreRef>)
    ensures forall x :: x in r <==> x in rows && x.templateId == templateId && !x.destroyed
  {
    var b := map[TemplateIdName := Int(templateId), DestroyedName := Bool(false)];
    Matches2(TemplateSearch, b);
    Select(rows, TemplateSearch, b)
  }

  // The zone-wide lookups.  The store lists come from the data-store manager
  // (`getImageStoresByScope`, `getImageCacheStores` for the zone) and are inputs here.

  /** The per-store results of listByTemplateStoreDownloadStatus, concatenated in store order. */
  function ZoneDownloadList(rows: seq<TemplateStoreRef>, templateId: int, stores: seq<int>,
                            status: seq<DownloadStatus>): seq<TemplateStoreRef>
    decreases |stores|
  {
    if stores == [] then []
    else ZoneDownloadList(rows, templateId, stores[..|stores| - 1], status)
         + ListByTemplateStoreDownloadStatus(rows, templateId, stores[|stores| - 1], status)
  }

  /** The zone-wide list holds exactly the matching live records that sit on one of the stores. */
  lemma {:induction false} ZoneDownloadListMembers(rows: seq<TemplateStoreRef>, templateId: int, stores: seq<int>,
                                                   status: seq<DownloadStatus>)
    ensures forall x :: x in ZoneDownloadList(rows, templateId, stores, status) <==>
      x in rows && x.templateId == templateId && !x.destroyed && x.downloadState in status && x.storeId in stores
    decreases |stores|
  {
    if stores != [] {
      var init := stores[..|stores| - 1];
      ZoneDownloadListMembers(rows, templateId, init, status);
      assert stores == init + [stores[|stores| - 1]];
    }
  }

  /** listByTemplateZoneDownloadStatus: null when the store list is null. */
  method ListByTemplateZoneDownloadStatus(rows: seq<TemplateStoreRef>, templateId: int,
                                          imageStores: Option<seq<int>>, status: seq<DownloadStatus>)
    returns (r: Option<seq<TemplateStoreRef>>)
    ensures r.None? <==> imageStores.None?
    ensures r.Some? ==> r.value == ZoneDownloadList(rows, templateId, imageStores.value, status)
  {
    if imageStores.None? {
      return None;
    }
    var stores := imageStores.value;
    var result := [];
    var i := 0;
    while i < |stores|
      invariant 0 <= i <= |stores|
      invariant result == ZoneDownloadList(rows, templateId, stores[..i], status)
    {
      var sRes := ListByTemplateStoreDownloadStatus(rows, templateId, stores[i], status);
      if |sRes| > 0 {
        result := result + sRes;
      }
      assert stores[..i + 1][..i] == stores[..i];
      i := i + 1;
    }
    assert stores[..|stores|] == stores;
    return Some(result);
  }

  /**
   * findByTemplateZoneDownloadStatus: some record of the first store whose list is not
   * empty.  The source shuffles that list and takes its head; `pick` stands for the
   * shuffle's choice.
   */
  method FindByTemplateZoneDownloadStatus(rows: seq<TemplateStoreRef>, templateId: int,
                                          imageStores: Option<seq<int>>, status: seq<DownloadStatus>, pick: nat)
    returns (r: Option<TemplateStoreRef>)
    ensures r.None? <==> (imageStores.None? ||
      forall k :: 0 <= k < |imageStores.value| ==>
        ListByTemplateStoreDownloadStatus(rows, templateId, imageStores.value[k], status) == [])
    ensures r.Some? ==> (imageStores.Some? &&
      exists k :: 0 <= k < |imageStores.value| &&
        r.value in ListByTemplateStoreDownloadStatus(rows, templateId, imageStores.value[k], status) &&
        forall j :: 0 <= j < k ==> ListByTemplateStoreDownloadStatus(rows, templateId, imageStores.value[j], status) == [])
  {
    if imageStores.None? {
      return None;
    }
    var stores := imageStores.value;
    var i := 0;
    while i < |stores|
      invariant 0 <= i <= |stores|
      invariant forall j :: 0 <= j < i ==> ListByTemplateStoreDownloadStatus(rows, templateId, stores[j], status) == []
    {
      var sRes := ListByTemplateStoreDownloadStatus(rows, templateId, stores[i], status);
      if |sRes| > 0 {
        return Some(sRes[pick % |sRes|]);
      }
      i := i + 1;
    }
    return None;
  }

  /** The stores findByTemplateZone searches: image stores for Image, cache stores for ImageCache, none otherwise. */
  function StoresForRole(role: Role, imageStores: Option<seq<int>>, cacheStores: Option<seq<int>>): Option<seq<int>>
  {
    if role == Image then imageStores else if role == ImageCache then cacheStores else None
  }

  /** findByTemplateZone: the first record of the first store that holds a live record of the template. */
  method FindByTemplateZone(rows: seq<TemplateStoreRef>, templateId: int, role: Role,
                            imageStores: Option<seq<int>>, cacheStores: Option<seq<int>>)
    returns (r: Option<TemplateStoreRef>)
    ensures role != Image && role != ImageCache ==> r.None?
    ensures var stores := StoresForRole(role, imageStores, cacheStores);
      r.None? <==> (stores.None? ||
        forall k :: 0 <= k < |stores.value| ==> ListByTemplateStore(rows, templateId, stores.value[k]) == [])
    ensures var stores := StoresForRole(role, imageStores, cacheStores);
      r.Some? ==> (stores.Some? &&
        exists k :: 0 <= k < |stores.value| &&
          ListByTemplateStore(rows, templateId, stores.value[k]) != [] &&
          r.value == ListByTemplateStore(rows, templateId, stores.value[k])[0] &&
          forall j :: 0 <= j < k ==> ListByTemplateStore(rows, templateId, stores.value[j]) == [])
  {
    var imgStores: Option<seq<int>> := None;
    if role == Image {
      imgStores := imageStores;
    } else if role == ImageCache {
      imgStores := cacheStores;
    }
    if imgStores.Some? {
      var stores := imgStores.value;
      var i := 0;
      while i < |stores|
        invariant 0 <= i <= |stores|
        invariant forall j :: 0 <= j < i ==> ListByTemplateStore(rows, templateId, stores[j]) == []
      {
        var sRes := ListByTemplateStore(rows, templateId, stores[i]);
        if |sRes| > 0 {
          return Some(sRes[0]);
        }
        i := i + 1;
      }
    }
    return None;
  }
}
