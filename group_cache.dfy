/**
 * The Redis side of group caching (GroupRedisService.java): one key per
 * group, "group:" followed by the group's id, written with a 30-minute
 * time to live.  Every cache failure is swallowed: a failed write still
 * hands back the group, a failed read or delete reads as "not cached".
 * Whether each Redis call succeeds is a parameter.
 */
module GroupRedis {
  import opened ChatTypes
  import opened GroupModel

  const GroupPrefix: string := "group:"

  /** GROUP_TTL, 30 minutes, in seconds. */
  const GroupTtlSeconds: nat := 30 * 60

  /** The cache key of a group id: the prefix, then the id, which can be read back out of it. */
  function Key(groupID: string): (key: string)
    ensures |key| == |GroupPrefix| + |groupID|
    ensures key[..|GroupPrefix|] == GroupPrefix && key[|GroupPrefix|..] == groupID
    ensures IdOfKey(key) == Some(groupID)
  {
    var key := GroupPrefix + groupID;
    assert key[..|GroupPrefix|] == GroupPrefix;
    assert key[|GroupPrefix|..] == groupID;
    key
  }

  /** The group id a cache key names, if it is a group key at all. */
  function IdOfKey(key: string): Option<string>
  {
    if |GroupPrefix| <= |key| && key[..|GroupPrefix|] == GroupPrefix then Some(key[|GroupPrefix|..]) else None
  }

  lemma IdOfKeyInverse(key: string, groupID: string)
    requires IdOfKey(key) == Some(groupID)
    ensures Key(groupID) == key
  {
    assert key == key[..|GroupPrefix|] + key[|GroupPrefix|..];
  }

  /** Distinct groups never share a cache key. */
  lemma KeyInjective(a: string, b: string)
    ensures Key(a) == Key(b) <==> a == b
  {
  }

  /** A cached value together with the expiry it was written with. */
  datatype Entry = Entry(group: Group, ttlSeconds: nat)

  /** The Redis commands the service issues, whether or not they succeed. */
  datatype CacheOp = Set(key: string, ttlSeconds: nat) | Get(key: string) | Delete(key: string)

  /** Every entry sits under its own group's key and carries the group TTL. */
  ghost predicate Coherent(entries: map<string, Entry>)
  {
    forall k :: k in entries ==> k == Key(entries[k].group.groupID.text) && entries[k].ttlSeconds == GroupTtlSeconds
  }

  /** A successful GET of the key of groupID. */
  function Lookup(entries: map<string, Entry>, groupID: string): Option<Group>
  {
    if Key(groupID) in entries then Some(entries[Key(groupID)].group) else None
  }

  /** A successful SET of g under its key. */
  function Stored(entries: map<string, Entry>, g: Group): map<string, Entry>
  {
    entries[Key(g.groupID.text) := Entry(g, GroupTtlSeconds)]
  }

  /** A group read back from a coherent cache is the group that was asked for. */
  lemma LookupFindsOwnId(entries: map<string, Entry>, groupID: string)
    requires Coherent(entries)
    ensures Lookup(entries, groupID).Some? ==> Lookup(entries, groupID).value.groupID.text == groupID
  {
    if Key(groupID) in entries {
      KeyInjective(groupID, entries[Key(groupID)].group.groupID.text);
    }
  }

  /** Reading a group right after writing it returns it; other ids read as before. */
  lemma LookupAfterStored(entries: map<string, Entry>, g: Group, groupID: string)
    ensures Lookup(Stored(entries, g), g.groupID.text) == Some(g)
    ensures groupID != g.groupID.text ==> Lookup(Stored(entries, g), groupID) == Lookup(entries, groupID)
  {
    KeyInjective(groupID, g.groupID.text);
  }

  lemma StoredCoherent(entries: map<string, Entry>, g: Group)
    requires Coherent(entries)
    ensures Coherent(Stored(entries, g))
  {
  }

  /** The cache after saveAll's writes, in list order, each landing when its flag says so. */
  function CacheAll(entries: map<string, Entry>, groups: seq<Group>, ups: seq<bool>): map<string, Entry>
    requires |groups| == |ups|
    decreases |groups|
  {
    if groups == [] then entries
    else CacheAll(if ups[0] then Stored(entries, groups[0]) else entries, groups[1..], ups[1..])
  }

  /** The SET commands saveAll issues, one per group. */
  function SetsFor(groups: seq<Group>): (ops: seq<CacheOp>)
    ensures |ops| == |groups|
    ensures forall i :: 0 <= i < |groups| ==> ops[i] == Set(Key(groups[i].groupID.text), GroupTtlSeconds)
  {
    if groups == [] then [] else [Set(Key(groups[0].groupID.text), GroupTtlSeconds)] + SetsFor(groups[1..])
  }

  /** saveAll keeps the cache coherent. */
  lemma {:induction false} CacheAllCoherent(entries: map<string, Entry>, groups: seq<Group>, ups: seq<bool>)
    requires |groups| == |ups|
    requires Coherent(entries)
    ensures Coherent(CacheAll(entries, groups, ups))
    decreases |groups|
  {
    if groups != [] {
      var next := if ups[0] then Stored(entries, groups[0]) else entries;
      if ups[0] {
        StoredCoherent(entries, groups[0]);
      }
      CacheAllCoherent(next, groups[1..], ups[1..]);
    }
  }

  /**
   * A group whose write landed and that no later landed write of the same
   * id overwrote is what the cache returns for its id afterwards.
   */
  lemma {:induction false} CacheAllLastWriteWins(entries: map<string, Entry>, groups: seq<Group>, ups: seq<bool>, i: nat)
    requires |groups| == |ups| && i < |groups| && ups[i]
    requires forall j :: i < j < |groups| && ups[j] ==> groups[j].groupID != groups[i].groupID
    ensures Lookup(CacheAll(entries, groups, ups), groups[i].groupID.text) == Some(groups[i])
    decreases |groups|
  {
    var next := if ups[0] then Stored(entries, groups[0]) else entries;
    if i == 0 {
      var k := Key(groups[0].groupID.text);
      forall j | 0 <= j < |groups[1..]| && ups[1..][j]
        ensures k != Key(groups[1..][j].groupID.text)
      {
        KeyInjective(groups[0].groupID.text, groups[1..][j].groupID.text);
      }
      CacheAllKeepsOtherKeys(next, groups[1..], ups[1..], k);
    } else {
      CacheAllLastWriteWins(next, groups[1..], ups[1..], i - 1);
    }
  }

  /**
   * saveAll touches no key other than the keys of the groups it was given;
   * more precisely, a key no landed write names keeps its entry.
   */
  lemma {:induction false} CacheAllKeepsOtherKeys(entries: map<string, Entry>, groups: seq<Group>, ups: seq<bool>, k: string)
    requires |groups| == |ups|
    requires forall j :: 0 <= j < |groups| && ups[j] ==> k != Key(groups[j].groupID.text)
    ensures k in CacheAll(entries, groups, ups) <==> k in entries
    ensures k in entries ==> CacheAll(entries, groups, ups)[k] == entries[k]
    decreases |groups|
  {
    if groups != [] {
      var next := if ups[0] then Stored(entries, groups[0]) else entries;
      CacheAllKeepsOtherKeys(next, groups[1..], ups[1..], k);
    }
  }

  /** The group cache of one process: Redis's key space, as far as group keys go. */
  class GroupRedisService {
    var entries: map<string, Entry>
    ghost var log: seq<CacheOp>

    ghost predicate Valid()
      reads this
    {
      Coherent(entries)
    }

    constructor ()
      ensures Valid() && entries == map[] && log == []
    {
      entries := map[];
      log := [];
    }

    /**
     * saveGroup: SET the group's key with the group TTL and hand the group
     * back; a failed write is swallowed and still hands the group back.
     */
    method SaveGroup(g: Group, up: bool) returns (r: Group)
      requires Valid()
      modifies this
      ensures Valid()
      ensures r == g
      ensures entries == if up then Stored(old(entries), g) else old(entries)
      ensures log == old(log) + [Set(Key(g.groupID.text), GroupTtlSeconds)]
    {
      log := log + [Set(Key(g.groupID.text), GroupTtlSeconds)];
      if up {
        entries := entries[Key(g.groupID.text) := Entry(g, GroupTtlSeconds)];
      }
      r := g;
    }

    /** getGroupById: GET the key of the id; a failed read is swallowed as "not cached". */
    method GetGroupById(groupID: string, up: bool) returns (r: Option<Group>)
      modifies this`log
      ensures r == if up then Lookup(entries, groupID) else None
      ensures Valid() && r.Some? ==> r.value.groupID.text == groupID
      ensures log == old(log) + [Get(Key(groupID))]
    {
      log := log + [Get(Key(groupID))];
      var key := Key(groupID);
      if up && key in entries {
        r := Some(entries[key].group);
      } else {
        r := None;
      }
      if Valid() {
        LookupFindsOwnId(entries, groupID);
      }
    }

    /**
     * deleteGroup: DEL the key (a failure is swallowed), then answer with a
     * fresh read of the same key.
     */
    method DeleteGroup(groupID: string, deleteUp: bool, readUp: bool) returns (r: Option<Group>)
      requires Valid()
      modifies this
      ensures Valid()
      ensures entries == if deleteUp then old(entries) - {Key(groupID)} else old(entries)
      ensures r == if readUp then Lookup(entries, groupID) else None
      ensures deleteUp ==> r == None
      ensures log == old(log) + [Delete(Key(groupID)), Get(Key(groupID))]
    {
      log := log + [Delete(Key(groupID))];
      if deleteUp {
        entries := entries - {Key(groupID)};
      }
      r := GetGroupById(groupID, readUp);
    }

    /** saveAll: saveGroup for each group of the list, handing each one back. */
    method SaveAll(groups: seq<Group>, ups: seq<bool>) returns (saved: seq<Group>)
      requires Valid() && |ups| == |groups|
      modifies this
      ensures Valid()
      ensures saved == groups
      ensures entries == CacheAll(old(entries), groups, ups)
      ensures log == old(log) + SetsFor(groups)
    {
      saved := [];
      var i := 0;
      while i < |groups|
        invariant 0 <= i <= |groups|
        invariant Valid()
        invariant saved == groups[..i]
        invariant CacheAll(entries, groups[i..], ups[i..]) == CacheAll(old(entries), groups, ups)
        invariant log == old(log) + SetsFor(groups[..i])
      {
        assert groups[i..][1..] == groups[i + 1..] && ups[i..][1..] == ups[i + 1..];
        var g := SaveGroup(groups[i], ups[i]);
        saved := saved + [g];
        i := i + 1;
        assert groups[..i] == groups[..i - 1] + [groups[i - 1]];
      }
      assert groups[..i] == groups;
    }
  }
}
