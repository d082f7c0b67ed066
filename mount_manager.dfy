/**
 * The core's table of workspace mounts: a dictionary from `user_id:workspace_id` to
 * a stored record, with lookup (which writes the two ids into the stored record),
 * listing, add (overwriting) and remove; and the rewrite of the development
 * container's compose volumes that puts one mount's entry last.
 *
 * A stored record is a JSON object whose values are strings or null; reading and
 * writing `mount_data.json` and the compose file, and the Docker commands, are left
 * out: the loaded table and volume list are inputs.
 */
module MountManager {
  import opened Wrappers
  import opened Text
  import opened Dicts

  /** A stored mount record: a JSON object whose values are strings or null (None). */
  type Record = Dict<string, Option<string>>

  const DEFAULT_CONTAINER_PATH := "/workspace"

  /** `MountConfig`: the record `add_mount` is given. */
  datatype MountConfig = MountConfig(
    userId: string, workspaceId: string, localPath: string,
    containerPath: string, description: Option<string>)

  /** `_get_mount_key`. */
  function MountKey(userId: string, workspaceId: string): (key: string)
    ensures |key| == |userId| + 1 + |workspaceId|
    ensures key[|userId|] == ':' && key[..|userId|] == userId && key[|userId| + 1..] == workspaceId
  {
    userId + ":" + workspaceId
  }

  /**
   * Splitting a key at its first ":" gives back the user and the workspace exactly
   * when the user id has no ":" of its own.
   */
  lemma MountKeySplitIff(userId: string, workspaceId: string)
    ensures SplitN(MountKey(userId, workspaceId), ':', 1) == [userId, workspaceId] <==> ':' !in userId
  {
    if ':' !in userId {
      assert MountKey(userId, workspaceId) == userId + [':'] + workspaceId;
      SplitNConcat(userId, workspaceId, ':', 1);
    }
  }

  /** The record `add_mount` stores. */
  function NewRecord(localPath: string, containerPath: string, description: Option<string>, createdAt: string): Record {
    [("local_path", Some(localPath)), ("container_path", Some(containerPath)),
     ("description", description), ("created_at", Some(createdAt))]
  }

  /** A stored record with the two ids written into it, as `get_mount_info` leaves it. */
  function Annotated(r: Record, userId: string, workspaceId: string): Record {
    Put(Put(r, "user_id", Some(userId)), "workspace_id", Some(workspaceId))
  }

  /** The annotated record carries the ids and keeps every other field of the stored one. */
  lemma AnnotatedGet(r: Record, userId: string, workspaceId: string, k: string)
    ensures Get(Annotated(r, userId, workspaceId), k) ==
      if k == "workspace_id" then Some(Some(workspaceId))
      else if k == "user_id" then Some(Some(userId))
      else Get(r, k)
  {
    PutGet(Put(r, "user_id", Some(userId)), "workspace_id", Some(workspaceId), k);
    PutGet(r, "user_id", Some(userId), k);
  }

  /** Annotating a record a second time with the same ids changes nothing. */
  lemma AnnotatedIdempotent(r: Record, userId: string, workspaceId: string)
    ensures Annotated(Annotated(r, userId, workspaceId), userId, workspaceId) == Annotated(r, userId, workspaceId)
  {
    var a := Annotated(r, userId, workspaceId);
    AnnotatedGet(r, userId, workspaceId, "user_id");
    PutExisting(a, "user_id", Some(userId));
    AnnotatedGet(r, userId, workspaceId, "workspace_id");
    PutExisting(a, "workspace_id", Some(workspaceId));
  }

  /** The ids a listed key splits into, at its first ":". */
  function KeyParts(key: string): (parts: (string, string))
    requires ':' in key
    ensures key == parts.0 + ":" + parts.1 && ':' !in parts.0
  {
    SplitNTwoPieces(key, ':', 1);
    JoinSplitN(key, ':', 1);
    var p := SplitN(key, ':', 1);
    assert p[1..] == [p[1]];
    (p[0], p[1])
  }

  /** A key made from a user id without ":" splits back into that user id and workspace id. */
  lemma KeyPartsOfKey(userId: string, workspaceId: string)
    requires ':' !in userId
    ensures ':' in MountKey(userId, workspaceId)
    ensures KeyParts(MountKey(userId, workspaceId)) == (userId, workspaceId)
  {
    var key := MountKey(userId, workspaceId);
    assert key[|userId|] == ':';
    MountKeySplitIff(userId, workspaceId);
  }

  /** The entry `list_mounts` makes of one table entry, if its key has a ":". */
  function ListEntry(key: string, r: Record): seq<Record> {
    if ':' in key then
      var (u, w) := KeyParts(key);
      [Merge([("user_id", Some(u)), ("workspace_id", Some(w))], r)]
    else []
  }

  /** `list_mounts`: one entry per key with a ":", in table order. */
  function Listing(d: Dict<string, Record>): seq<Record> {
    if |d| == 0 then [] else Listing(d[..|d| - 1]) + ListEntry(d[|d| - 1].0, d[|d| - 1].1)
  }

  /**
   * A listed entry holds the ids split from the key, except that a stored `user_id`
   * or `workspace_id` (written there by an earlier lookup) overrides them; every other
   * field comes from the stored record.
   */
  lemma ListEntryGet(key: string, r: Record, k: string)
    requires ':' in key && Distinct(Keys(r))
    ensures var e := ListEntry(key, r)[0];
      Get(e, k) ==
        if k in Keys(r) then Get(r, k)
        else if k == "user_id" then Some(Some(KeyParts(key).0))
        else if k == "workspace_id" then Some(Some(KeyParts(key).1))
        else None
  {
    var (u, w) := KeyParts(key);
    MergeGet([("user_id", Some(u)), ("workspace_id", Some(w))], r, k);
  }

  /** Every table entry whose key has a ":" appears in the listing. */
  lemma {:induction false} ListingContains(d: Dict<string, Record>, i: nat)
    requires i < |d| && ':' in d[i].0
    ensures ListEntry(d[i].0, d[i].1)[0] in Listing(d)
  {
    var n := |d| - 1;
    if i < n {
      ListingContains(d[..n], i);
    }
  }

  /** Keys without a ":" are left out of the listing. */
  lemma {:induction false} ListingSkipsPlainKeys(d: Dict<string, Record>)
    requires forall i :: 0 <= i < |d| ==> ':' !in d[i].0
    ensures Listing(d) == []
  {
    if |d| > 0 {
      ListingSkipsPlainKeys(d[..|d| - 1]);
    }
  }

  /** The listing of a concatenated table is the listing of its halves, in order. */
  lemma {:induction false} ListingAppend(a: Dict<string, Record>, b: Dict<string, Record>)
    ensures Listing(a + b) == Listing(a) + Listing(b)
    decreases |b|
  {
    if |b| == 0 {
      assert a + b == a;
    } else {
      var n := |b| - 1;
      assert (a + b)[..|a + b| - 1] == a + b[..n];
      assert (a + b)[|a + b| - 1] == b[n];
      ListingAppend(a, b[..n]);
    }
  }

  /** An entry whose key has no ":" contributes nothing: the listing is that of the others. */
  lemma ListingSkipsPlainKey(d: Dict<string, Record>, i: nat)
    requires i < |d| && ':' !in d[i].0
    ensures Listing(d) == Listing(d[..i]) + Listing(d[i + 1..])
  {
    var before, entry, after := d[..i], [d[i]], d[i + 1..];
    assert d == (before + entry) + after;
    assert entry[..0] == [] && ListEntry(entry[0].0, entry[0].1) == [];
    assert Listing(entry) == [];
    ListingAppend(before + entry, after);
    ListingAppend(before, entry);
    assert Listing(before + entry) == Listing(before);
  }

  /** The number of keys of `d` that contain a ":". */
  function ColonKeys(d: Dict<string, Record>): nat {
    if |d| == 0 then 0 else ColonKeys(d[..|d| - 1]) + (if ':' in d[|d| - 1].0 then 1 else 0)
  }

  /** The listing has one entry per key with a ":" and no other. */
  lemma {:induction false} ListingLength(d: Dict<string, Record>)
    ensures |Listing(d)| == ColonKeys(d)
  {
    if |d| > 0 {
      ListingLength(d[..|d| - 1]);
    }
  }

  /** Every listed entry is the entry made of some table entry whose key has a ":". */
  lemma {:induction false} ListingOnlyEntries(d: Dict<string, Record>, e: Record)
    requires e in Listing(d)
    ensures exists i :: 0 <= i < |d| && ':' in d[i].0 && e == ListEntry(d[i].0, d[i].1)[0]
  {
    var n := |d| - 1;
    if e in Listing(d[..n]) {
      ListingOnlyEntries(d[..n], e);
      var i :| 0 <= i < n && ':' in d[..n][i].0 && e == ListEntry(d[..n][i].0, d[..n][i].1)[0];
      assert d[..n][i] == d[i];
    } else {
      assert e in ListEntry(d[n].0, d[n].1);
    }
  }

  /**
   * A mount added for a user id without ":" is listed with the ids it was added with
   * and the fields it was stored with.
   */
  lemma AddedMountListed(d: Dict<string, Record>, userId: string, workspaceId: string, r: Record)
    requires (MountKey(userId, workspaceId), r) in d && ':' !in userId && Distinct(Keys(r))
    requires "user_id" !in Keys(r) && "workspace_id" !in Keys(r)
    ensures exists e :: e in Listing(d) && Get(e, "user_id") == Some(Some(userId)) && Get(e, "workspace_id") == Some(Some(workspaceId))
                        && forall k :: k in Keys(r) ==> Get(e, k) == Get(r, k)
  {
    var key := MountKey(userId, workspaceId);
    var i :| 0 <= i < |d| && d[i] == (key, r);
    ListingContains(d, i);
    MountKeySplitIff(userId, workspaceId);
    var e := ListEntry(key, r)[0];
    ListEntryGet(key, r, "user_id");
    ListEntryGet(key, r, "workspace_id");
    forall k | k in Keys(r) ensures Get(e, k) == Get(r, k) {
      ListEntryGet(key, r, k);
    }
  }

  /** `_update_docker_compose`'s comprehension: the volumes not mounted at the target. */
  function OtherVolumes(volumes: seq<string>, suffix: string): (kept: seq<string>)
    ensures forall v :: v in kept <==> v in volumes && !EndsWith(v, suffix)
  {
    if |volumes| == 0 then []
    else
      var init := OtherVolumes(volumes[..|volumes| - 1], suffix);
      var v := volumes[|volumes| - 1];
      assert volumes == volumes[..|volumes| - 1] + [v];
      if EndsWith(v, suffix) then init else init + [v]
  }

  lemma {:induction false} OtherVolumesAppend(a: seq<string>, b: seq<string>, suffix: string)
    ensures OtherVolumes(a + b, suffix) == OtherVolumes(a, suffix) + OtherVolumes(b, suffix)
  {
    if |b| == 0 {
      assert a + b == a;
    } else {
      var n := |b| - 1;
      assert (a + b)[..|a + b| - 1] == a + b[..n];
      OtherVolumesAppend(a, b[..n], suffix);
      if !EndsWith(b[n], suffix) {
        AppendAssoc(OtherVolumes(a, suffix), OtherVolumes(b[..n], suffix), [b[n]]);
      }
    }
  }

  /** Filtering twice is filtering once. */
  lemma {:induction false} OtherVolumesIdempotent(volumes: seq<string>, suffix: string)
    ensures OtherVolumes(OtherVolumes(volumes, suffix), suffix) == OtherVolumes(volumes, suffix)
  {
    if |volumes| > 0 {
      var n := |volumes| - 1;
      var init := OtherVolumes(volumes[..n], suffix);
      OtherVolumesIdempotent(volumes[..n], suffix);
      if !EndsWith(volumes[n], suffix) {
        OtherVolumesAppend(init, [volumes[n]], suffix);
      }
    }
  }

  /** The rewritten volume list for one mount. */
  function Rewritten(volumes: seq<string>, userId: string, workspaceId: string, localPath: string): seq<string> {
    var target := "/workspace/" + userId + "/" + workspaceId;
    Replaced(volumes, ":" + target, localPath + ":" + target)
  }

  /** Dropping the volumes with a suffix and appending an entry that has that suffix. */
  function Replaced(volumes: seq<string>, suffix: string, entry: string): seq<string> {
    OtherVolumes(volumes, suffix) + [entry]
  }

  /** Replacing twice with the same entry gives what replacing once gives. */
  lemma ReplacedIdempotent(volumes: seq<string>, suffix: string, entry: string)
    requires EndsWith(entry, suffix)
    ensures Replaced(Replaced(volumes, suffix, entry), suffix, entry) == Replaced(volumes, suffix, entry)
  {
    var kept := OtherVolumes(volumes, suffix);
    OtherVolumesAppend(kept, [entry], suffix);
    OtherVolumesIdempotent(volumes, suffix);
  }

  lemma EndsWithAppend(x: string, y: string)
    ensures EndsWith(x + y, y)
  {
    assert (x + y)[|x + y| - |y|..] == y;
  }

  /** Rewriting the volumes twice for the same mount gives what one rewrite gives. */
  lemma RewrittenIdempotent(volumes: seq<string>, userId: string, workspaceId: string, localPath: string)
    ensures Rewritten(Rewritten(volumes, userId, workspaceId, localPath), userId, workspaceId, localPath)
         == Rewritten(volumes, userId, workspaceId, localPath)
  {
    var target := "/workspace/" + userId + "/" + workspaceId;
    var suffix := ":" + target;
    AppendAssoc(localPath, ":", target);
    EndsWithAppend(localPath, suffix);
    ReplacedIdempotent(volumes, suffix, localPath + suffix);
  }

  class MountManager {
    /** The table as loaded from `mount_data.json`. */
    var mountData: Dict<string, Record>

    /** Distinct keys, as in any dictionary. */
    predicate Valid()
      reads this
    {
      Distinct(Keys(mountData))
    }

    /** `__init__` with `_load_mount_data`: the loaded table, or an empty one when there is none. */
    constructor(loaded: Option<Dict<string, Record>>)
      requires loaded.Some? ==> Distinct(Keys(loaded.value))
      ensures Valid()
      ensures mountData == loaded.GetOr([])
    {
      mountData := loaded.GetOr([]);
    }

    /**
     * `get_mount_info`: None for an absent key; for a non-empty record, the record with
     * the two ids written into it, and the stored record is that same annotated one.
     * An empty record is returned as it is.
     */
    method GetMountInfo(userId: string, workspaceId: string) returns (info: Option<Record>)
      requires Valid()
      modifies this`mountData
      ensures Valid()
      ensures info == (if Get(old(mountData), MountKey(userId, workspaceId)).Some? && Get(old(mountData), MountKey(userId, workspaceId)).value != []
                       then Some(Annotated(Get(old(mountData), MountKey(userId, workspaceId)).value, userId, workspaceId))
                       else Get(old(mountData), MountKey(userId, workspaceId)))
      ensures mountData == if info.Some? then Put(old(mountData), MountKey(userId, workspaceId), info.value) else old(mountData)
    {
      var key := MountKey(userId, workspaceId);
      info := Get(mountData, key);
      if info.Some? && info.value != [] {
        var r := Annotated(info.value, userId, workspaceId);
        mountData := Put(mountData, key, r);
        info := Some(r);
        PutKeepsKeysDistinct(old(mountData), key, r);
      } else if info.Some? {
        PutExisting(mountData, key, info.value);
      }
    }

    /** `list_mounts`. */
    method ListMounts() returns (result: seq<Record>)
      ensures result == Listing(mountData)
    {
      result := [];
      var i := 0;
      while i < |mountData|
        invariant 0 <= i <= |mountData|
        invariant result == Listing(mountData[..i])
      {
        assert mountData[..i + 1][..i] == mountData[..i];
        var (key, r) := mountData[i];
        if ':' in key {
          var (u, w) := KeyParts(key);
          result := result + [Merge([("user_id", Some(u)), ("workspace_id", Some(w))], r)];
        }
        i := i + 1;
      }
      assert mountData[..i] == mountData;
    }

    /**
     * `add_mount`: stores a new record under the key, replacing any earlier one, and
     * returns True. `normalise` is `str(Path(...))` and `createdAt` the current time.
     */
    method AddMount(config: MountConfig, normalise: string -> string, createdAt: string) returns (ok: bool)
      requires Valid()
      modifies this`mountData
      ensures Valid() && ok
      ensures mountData == Put(old(mountData), MountKey(config.userId, config.workspaceId),
                               NewRecord(normalise(config.localPath), config.containerPath, config.description, createdAt))
    {
      var localPath := normalise(config.localPath);
      var key := MountKey(config.userId, config.workspaceId);
      var info := NewRecord(localPath, config.containerPath, config.description, createdAt);
      PutKeepsKeysDistinct(mountData, key, info);
      mountData := Put(mountData, key, info);
      ok := true;
    }

    /** `remove_mount`: True and the entry deleted when the key is present; False and no change otherwise. */
    method RemoveMount(userId: string, workspaceId: string) returns (ok: bool)
      requires Valid()
      modifies this`mountData
      ensures Valid()
      ensures ok <==> MountKey(userId, workspaceId) in Keys(old(mountData))
      ensures mountData == Remove(old(mountData), MountKey(userId, workspaceId))
    {
      var key := MountKey(userId, workspaceId);
      ok := key in Keys(mountData);
      if ok {
        RemoveKeepsKeysDistinct(mountData, key);
        mountData := Remove(mountData, key);
      } else {
        RemoveAbsent(mountData, key);
      }
    }

    /**
     * The volume rewrite of `_update_docker_compose`: every volume mounted at
     * `/workspace/<user>/<workspace>` is dropped, the others keep their order, and the
     * new `<local>:<target>` entry goes last.
     */
    method UpdateDockerCompose(userId: string, workspaceId: string, localPath: string, volumes: seq<string>)
      returns (updated: seq<string>)
      ensures updated == Rewritten(volumes, userId, workspaceId, localPath)
      ensures |updated| >= 1 && updated[|updated| - 1] == localPath + ":/workspace/" + userId + "/" + workspaceId
      ensures forall v :: v in updated[..|updated| - 1] <==>
        v in volumes && !EndsWith(v, ":/workspace/" + userId + "/" + workspaceId)
    {
      var target := "/workspace/" + userId + "/" + workspaceId;
      var workspaceMount := localPath + ":" + target;
      updated := OtherVolumes(volumes, ":" + target);
      updated := updated + [workspaceMount];
      assert ":" + target == ":/workspace/" + userId + "/" + workspaceId;
      assert updated[..|updated| - 1] == OtherVolumes(volumes, ":" + target);
    }

    /**
     * `apply_mount`: adds the mount, then rewrites the compose volumes with the path as
     * given (not the normalised one). `volumes` is None when the compose file cannot be
     * read or lacks `services`/`openmanus-core-dev`/`volumes`, and `written` says whether
     * writing it back succeeded; either failure re-raises, so `apply_mount` returns False
     * without restarting. Otherwise the result is whether the restart, an input, succeeded.
     * `updated` is the volume list written to the compose file, if any.
     */
    method ApplyMount(userId: string, workspaceId: string, localPath: string, normalise: string -> string,
                      createdAt: string, volumes: Option<seq<string>>, written: bool, restarted: bool)
      returns (ok: bool, restartAttempted: bool, updated: Option<seq<string>>)
      requires Valid()
      modifies this`mountData
      ensures Valid()
      ensures mountData == Put(old(mountData), MountKey(userId, workspaceId),
                               NewRecord(normalise(localPath), DEFAULT_CONTAINER_PATH, None, createdAt))
      ensures restartAttempted <==> volumes.Some? && written
      ensures ok <==> restartAttempted && restarted
      ensures updated == if restartAttempted then Some(Rewritten(volumes.value, userId, workspaceId, localPath)) else None
    {
      var added := AddMount(MountConfig(userId, workspaceId, localPath, "/workspace", None), normalise, createdAt);
      if volumes.None? {
        return false, false, None;
      }
      var rewritten := UpdateDockerCompose(userId, workspaceId, localPath, volumes.value);
      if !written {
        return false, false, None;
      }
      return restarted, true, Some(rewritten);
    }
  }

  /** After `add_mount`, a lookup finds the new record, with the ids written into it. */
  lemma AddThenGet(d: Dict<string, Record>, config: MountConfig, localPath: string, createdAt: string)
    ensures var r := NewRecord(localPath, config.containerPath, config.description, createdAt);
      Get(Put(d, MountKey(config.userId, config.workspaceId), r), MountKey(config.userId, config.workspaceId)) == Some(r)
      && r != []
  {
    PutGet(d, MountKey(config.userId, config.workspaceId),
           NewRecord(localPath, config.containerPath, config.description, createdAt), MountKey(config.userId, config.workspaceId));
  }

  /** After `remove_mount`, the key is absent and every other mount is as it was. */
  lemma RemoveThenGet(d: Dict<string, Record>, userId: string, workspaceId: string, k: string)
    ensures Get(Remove(d, MountKey(userId, workspaceId)), k) ==
      if k == MountKey(userId, workspaceId) then None else Get(d, k)
  {
    RemoveGet(d, MountKey(userId, workspaceId), k);
  }
}
