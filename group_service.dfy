/**
 * The group service (GroupServiceImpl.java): cache-aside reads, and
 * write-through creates and updates, over an authoritative store keyed by
 * group id and the Redis group cache.  Reads try the cache first and, on a
 * miss, load from the store and write the group back; creates and updates
 * write the store, then the cache; list queries use the store alone.
 * Each store and each cache call ends as a `Reply`.  A cache call that
 * fails is swallowed; one that stalls leaves the operation waiting until
 * its enclosing timeout fires, which fails the operation even when the
 * store has already been written.  Store failures reach the caller.
 */
module GroupServices {
  import opened ChatTypes
  import opened GroupModel
  import opened GroupRedis

  /** The repository calls that read or write one group, whether or not they succeed. */
  datatype StoreCall = FindById(id: Uuid) | Save(group: Group)

  /** The store holds each group under its own id (the table's primary key). */
  ghost predicate StoredUnderOwnId(store: map<Uuid, Group>)
  {
    forall id :: id in store ==> store[id].groupID == id
  }

  /** scan lists every stored id exactly once: the order the store returns its rows in. */
  predicate Enumerates(store: map<Uuid, Group>, scan: seq<Uuid>)
  {
    && (forall i :: 0 <= i < |scan| ==> scan[i] in store)
    && (forall i, j :: 0 <= i < j < |scan| ==> scan[i] != scan[j])
    && (forall id :: id in store ==> id in scan)
  }

  /**
   * The private updateGroup's field replacement: the id stays, admin,
   * title, description and members come from the request, and both
   * timestamps are fresh clock readings.
   */
  function Revised(g: Group, dto: CreateGroupDto, firstRead: Instant, secondRead: Instant): Group
  {
    g.(admin := dto.admin, title := dto.title, description := dto.description, members := dto.members,
       createdAt := firstRead, updatedAt := secondRead)
  }

  /**
   * An update overwrites everything but the id: two groups with the same id
   * revise to the same group, whatever their old contents, and the response
   * carries the request, the id and the two new readings.  The creation
   * time is reset too.
   */
  lemma RevisionKeepsOnlyTheId(a: Group, b: Group, dto: CreateGroupDto, firstRead: Instant, secondRead: Instant)
    ensures Revised(a, dto, firstRead, secondRead) == Revised(b, dto, firstRead, secondRead) <==> a.groupID == b.groupID
    ensures Carries(ToDto(Revised(a, dto, firstRead, secondRead)), dto)
    ensures ToDto(Revised(a, dto, firstRead, secondRead)).groupID == a.groupID
    ensures ToDto(Revised(a, dto, firstRead, secondRead)).createdAt == firstRead
    ensures ToDto(Revised(a, dto, firstRead, secondRead)).updatedAt == secondRead
  {
  }

  class GroupService {
    var store: map<Uuid, Group>
    ghost var storeLog: seq<StoreCall>
    const cache: GroupRedisService

    ghost predicate Valid()
      reads this, cache
    {
      StoredUnderOwnId(store) && cache.Valid()
    }

    constructor (cache: GroupRedisService)
      requires cache.Valid()
      ensures Valid() && this.cache == cache && store == map[] && storeLog == []
    {
      this.cache := cache;
      store := map[];
      storeLog := [];
    }

    /**
     * createGroup: map the request to a new group, save it to the store,
     * then to the cache, and answer with its DTO.  A store error reaches
     * the caller as it is; a stalled store, or a cache write still pending
     * when the five-second timeout fires, gives the create timeout.  The
     * cache is written only after a successful save; a failed cache write
     * is swallowed.
     */
    method CreateGroup(dto: CreateGroupDto, generatedId: Uuid, firstRead: Instant, secondRead: Instant,
                       reply: Reply, cacheReply: Reply) returns (r: Result<GroupDto>)
      requires Valid()
      modifies this, cache
      ensures Valid()
      ensures var g := ToDomain(dto, generatedId, firstRead, secondRead);
        && storeLog == old(storeLog) + [Save(g)]
        && (reply == Answers ==>
              && r == (if cacheReply == Stalls then Err(CreateTimeout) else Ok(ToDto(g)))
              && store == old(store)[generatedId := g]
              && cache.entries == (if cacheReply == Answers then Stored(old(cache.entries), g) else old(cache.entries))
              && cache.log == old(cache.log) + [Set(Key(generatedId.text), GroupTtlSeconds)])
        && (reply != Answers ==>
              && r == Err(if reply == Fails then StoreError else CreateTimeout)
              && store == old(store)
              && cache.entries == old(cache.entries)
              && cache.log == old(cache.log))
    {
      var g := ToDomain(dto, generatedId, firstRead, secondRead);
      storeLog := storeLog + [Save(g)];
      match reply
      case Answers =>
        store := store[g.groupID := g];
        var cached := cache.SaveGroup(g, cacheReply == Answers);
        r := if cacheReply == Stalls then Err(CreateTimeout) else Ok(ToDto(cached));
      case Fails =>
        r := Err(StoreError);
      case Stalls =>
        r := Err(CreateTimeout);
    }

    /**
     * getGroupById: a cache hit answers at once and never touches the
     * store; on a miss the store is asked, a found group is written back to
     * the cache and returned, and an absent one gives an empty result.  A
     * store failure, or a cache call still pending when the three-second
     * timeout fires, gives the lookup failure for that id.
     */
    method GetGroupById(id: Uuid, cacheReadReply: Reply, reply: Reply, cacheWriteReply: Reply)
      returns (r: Result<Option<GroupDto>>)
      requires Valid()
      modifies this, cache
      ensures Valid()
      ensures store == old(store)
      ensures r.Ok? && r.value.Some? ==> r.value.value.groupID == id
      ensures cacheReadReply == Stalls ==>
        && r == Err(GroupLookupFailed(id))
        && storeLog == old(storeLog)
        && cache.entries == old(cache.entries)
        && cache.log == old(cache.log) + [Get(Key(id.text))]
      ensures var hit := if cacheReadReply == Answers then Lookup(old(cache.entries), id.text) else None;
        && (hit.Some? ==>
              && r == Ok(Some(ToDto(hit.value)))
              && storeLog == old(storeLog)
              && cache.entries == old(cache.entries)
              && cache.log == old(cache.log) + [Get(Key(id.text))])
        && (hit.None? && cacheReadReply != Stalls ==> storeLog == old(storeLog) + [FindById(id)])
        && (hit.None? && cacheReadReply != Stalls && reply == Answers && id in store ==>
              && r == (if cacheWriteReply == Stalls then Err(GroupLookupFailed(id)) else Ok(Some(ToDto(store[id]))))
              && cache.entries == (if cacheWriteReply == Answers then Stored(old(cache.entries), store[id]) else old(cache.entries))
              && cache.log == old(cache.log) + [Get(Key(id.text)), Set(Key(id.text), GroupTtlSeconds)])
        && (hit.None? && cacheReadReply != Stalls && reply == Answers && id !in store ==>
              && r == Ok(None)
              && cache.entries == old(cache.entries)
              && cache.log == old(cache.log) + [Get(Key(id.text))])
        && (hit.None? && cacheReadReply != Stalls && reply != Answers ==>
              && r == Err(GroupLookupFailed(id))
              && cache.entries == old(cache.entries)
              && cache.log == old(cache.log) + [Get(Key(id.text))])
    {
      var cached := cache.GetGroupById(id.text, cacheReadReply == Answers);
      if cacheReadReply == Stalls {
        r := Err(GroupLookupFailed(id));
        return;
      }
      if cached.Some? {
        assert cached.value.groupID == id;
        r := Ok(Some(ToDto(cached.value)));
        return;
      }
      storeLog := storeLog + [FindById(id)];
      if reply != Answers {
        r := Err(GroupLookupFailed(id));
      } else if id in store {
        var saved := cache.SaveGroup(store[id], cacheWriteReply == Answers);
        r := if cacheWriteReply == Stalls then Err(GroupLookupFailed(id)) else Ok(Some(ToDto(saved)));
      } else {
        r := Ok(None);
      }
    }

    /**
     * getAllGroup: the page (page, size) of the store's rows, each mapped
     * to its DTO.  The cache is not read (the function reads this object
     * only).  PageRequest.of rejects a negative page or a size below one
     * before any query is built.
     */
    function GetAllGroup(page: int, size: int, scan: seq<Uuid>, reply: Reply): (r: Result<seq<GroupDto>>)
      reads this
      requires Enumerates(store, scan)
      ensures page < 0 ==> r == Err(InvalidPageIndex)
      ensures 0 <= page && size < 1 ==> r == Err(InvalidPageSize)
      ensures 0 <= page && 1 <= size && reply != Answers ==> r == Err(GroupListFailed)
      ensures 0 <= page && 1 <= size && reply == Answers ==> r.Ok? && |r.value| == |Page(scan, page, size)|
      ensures r.Ok? ==> |r.value| <= size
      ensures r.Ok? ==> forall i :: 0 <= i < |r.value| ==>
                page * size + i < |scan| && r.value[i] == ToDto(store[scan[page * size + i]])
    {
      if page < 0 then Err(InvalidPageIndex)
      else if size < 1 then Err(InvalidPageSize)
      else if reply != Answers then Err(GroupListFailed)
      else
        var rows, ids := store, Page(scan, page, size);
        assert forall i :: 0 <= i < |ids| ==> page * size + i < |scan| && ids[i] == scan[page * size + i];
        Ok(seq(|ids|, i requires 0 <= i < |ids| => ToDto(rows[ids[i]])))
    }

    /**
     * updateGroup: load the group from the store (never from the cache);
     * an absent id gives an empty result and changes nothing; otherwise
     * replace its fields, save it, then cache it.  Every failure becomes
     * the update failure, and so does a cache write still pending when the
     * five-second timeout fires, although the store already holds the
     * revised group by then.
     */
    method UpdateGroup(id: Uuid, dto: CreateGroupDto, firstRead: Instant, secondRead: Instant,
                       findReply: Reply, saveReply: Reply, cacheReply: Reply) returns (r: Result<Option<GroupDto>>)
      requires Valid()
      modifies this, cache
      ensures Valid()
      ensures findReply != Answers ==>
        && r == Err(GroupUpdateFailed)
        && store == old(store) && storeLog == old(storeLog) + [FindById(id)]
        && cache.entries == old(cache.entries) && cache.log == old(cache.log)
      ensures findReply == Answers && id !in old(store) ==>
        && r == Ok(None)
        && store == old(store) && storeLog == old(storeLog) + [FindById(id)]
        && cache.entries == old(cache.entries) && cache.log == old(cache.log)
      ensures findReply == Answers && id in old(store) ==>
        var g := Revised(old(store)[id], dto, firstRead, secondRead);
        && storeLog == old(storeLog) + [FindById(id), Save(g)]
        && (saveReply == Answers ==>
              && r == (if cacheReply == Stalls then Err(GroupUpdateFailed) else Ok(Some(ToDto(g))))
              && store == old(store)[id := g]
              && cache.entries == (if cacheReply == Answers then Stored(old(cache.entries), g) else old(cache.entries))
              && cache.log == old(cache.log) + [Set(Key(id.text), GroupTtlSeconds)])
        && (saveReply != Answers ==>
              && r == Err(GroupUpdateFailed)
              && store == old(store)
              && cache.entries == old(cache.entries) && cache.log == old(cache.log))
    {
      storeLog := storeLog + [FindById(id)];
      if findReply != Answers {
        r := Err(GroupUpdateFailed);
        return;
      }
      if id !in store {
        r := Ok(None);
        return;
      }
      var revised := Revise(store[id], dto, firstRead, secondRead, saveReply);
      if revised.Err? {
        r := Err(GroupUpdateFailed);
        return;
      }
      var cached := cache.SaveGroup(revised.value, cacheReply == Answers);
      r := if cacheReply == Stalls then Err(GroupUpdateFailed) else Ok(Some(ToDto(cached)));
    }

    /**
     * The private updateGroup(Group, dto): set the loaded group's fields one
     * by one from the request and the clock, then save it to the store.
     */
    method Revise(g: Group, dto: CreateGroupDto, firstRead: Instant, secondRead: Instant, reply: Reply)
      returns (r: Result<Group>)
      requires Valid() && g.groupID in store && store[g.groupID] == g
      modifies this
      ensures Valid()
      ensures var revised := Revised(g, dto, firstRead, secondRead);
        && storeLog == old(storeLog) + [Save(revised)]
        && (reply == Answers ==> r == Ok(revised) && store == old(store)[g.groupID := revised])
        && (reply != Answers ==> r == Err(StoreError) && store == old(store))
    {
      var group := g;
      group := group.(groupID := group.groupID);
      group := group.(admin := dto.admin);
      group := group.(title := dto.title);
      group := group.(description := dto.description);
      group := group.(members := dto.members);
      group := group.(createdAt := firstRead);
      group := group.(updatedAt := secondRead);
      storeLog := storeLog + [Save(group)];
      if reply == Answers {
        store := store[group.groupID := group];
        r := Ok(group);
      } else {
        r := Err(StoreError);
      }
    }
  }

  /** Every DTO a page returns is the DTO of the stored group with that id. */
  lemma PagedGroupsAreStored(svc: GroupService, page: int, size: int, scan: seq<Uuid>, reply: Reply)
    requires StoredUnderOwnId(svc.store) && Enumerates(svc.store, scan)
    ensures var r := svc.GetAllGroup(page, size, scan, reply);
      r.Ok? ==> forall d :: d in r.value ==> d.groupID in svc.store && ToDto(svc.store[d.groupID]) == d
  {
  }

  /**
   * Create, read, update, read, each call succeeding: the read right after
   * the create is served from the cache without a store read, and the read
   * after the update sees the new title and the new update time.
   */
  method CreateReadUpdateRead(dto: CreateGroupDto, dto2: CreateGroupDto, id: Uuid, t0: Instant, t1: Instant)
    requires t0 < t1
  {
    var cache := new GroupRedisService();
    var svc := new GroupService(cache);
    var created := svc.CreateGroup(dto, id, t0, t0, Answers, Answers);
    assert created == Ok(ToDto(ToDomain(dto, id, t0, t0)));
    var logBefore := svc.storeLog;
    LookupAfterStored(map[], ToDomain(dto, id, t0, t0), id.text);
    var read := svc.GetGroupById(id, Answers, Answers, Answers);
    assert read == Ok(Some(created.value));
    assert svc.storeLog == logBefore;
    var updated := svc.UpdateGroup(id, dto2, t1, t1, Answers, Answers, Answers);
    var revised := Revised(ToDomain(dto, id, t0, t0), dto2, t1, t1);
    LookupAfterStored(svc.cache.entries, revised, id.text);
    var reread := svc.GetGroupById(id, Answers, Answers, Answers);
    assert reread == Ok(Some(ToDto(revised)));
    assert reread.value.value.title == dto2.title && reread.value.value.updatedAt > created.value.updatedAt;
  }
}
