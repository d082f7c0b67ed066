/**
 * The monitor container's mount handling: the HTTP handlers that read, add and
 * remove entries of the mount table, and `update_docker_compose`, which keeps the
 * development container's system volumes and rebuilds its user volumes from the table.
 *
 * The table is the content of `mount_data.json`; loading it, saving it (whose success
 * is an input), the compose file's YAML and the container restart are left out.
 */
module Monitor {
  import opened Wrappers
  import opened Text
  import opened Dicts
  import MountManager

  type Record = MountManager.Record

  const WORKSPACE_ROOT := "/workspace"

  /** The parts of a volume that mark it as belonging to the system. */
  const SYSTEM_MARKERS: seq<string> := ["/app/", "/config/", "docker.sock", "Dockerfile", "scripts"]

  /** A user volume is mounted under `/workspace/` and names none of the system markers. */
  predicate IsUserVolume(volume: string) {
    Contains(volume, ":/workspace/") && !exists i :: 0 <= i < |SYSTEM_MARKERS| && Contains(volume, SYSTEM_MARKERS[i])
  }

  /** The volumes that are not user volumes, in their original order. */
  function SystemVolumes(volumes: seq<string>): (kept: seq<string>)
    ensures forall v :: v in kept <==> v in volumes && !IsUserVolume(v)
  {
    if |volumes| == 0 then []
    else
      var init := SystemVolumes(volumes[..|volumes| - 1]);
      var v := volumes[|volumes| - 1];
      assert volumes == volumes[..|volumes| - 1] + [v];
      if IsUserVolume(v) then init else init + [v]
  }

  /** The local path as written into the compose file: no leading `/app/`, forward slashes only. */
  function HostPath(localPath: string): (p: string)
    ensures '\\' !in p
  {
    var stripped := if StartsWith(localPath, "/app/") then localPath[5..] else localPath;
    ReplaceChar(stripped, '\\', '/')
  }

  /** What one table entry contributes to the rebuild. */
  datatype Contribution = Skip | Entry(volume: string) | NullPath

  /**
   * A key with a ":" whose record has `local_path` gives `<path>:/workspace/<user>/<workspace>`,
   * the key split at its first ":"; a `local_path` of null makes the rebuild fail.
   */
  function ContributionOf(key: string, r: Record): Contribution {
    if ':' in key && "local_path" in Keys(r) then
      var (u, w) := MountManager.KeyParts(key);
      var lp := Get(r, "local_path").value;
      if lp.None? then NullPath else Entry(HostPath(lp.value) + ":" + WORKSPACE_ROOT + "/" + u + "/" + w)
    else Skip
  }

  /** The contributions of the table's entries, in order. */
  function Contributions(d: Dict<string, Record>): (cs: seq<Contribution>)
    ensures |cs| == |d|
    ensures forall i :: 0 <= i < |d| ==> cs[i] == ContributionOf(d[i].0, d[i].1)
  {
    if |d| == 0 then [] else Contributions(d[..|d| - 1]) + [ContributionOf(d[|d| - 1].0, d[|d| - 1].1)]
  }

  /** Appends the entries, in order, each only when not already present; None at a null path. */
  function AddEntries(volumes: seq<string>, cs: seq<Contribution>): Option<seq<string>> {
    if |cs| == 0 then Some(volumes)
    else
      var prev := AddEntries(volumes, cs[..|cs| - 1]);
      if prev.None? then None
      else match cs[|cs| - 1]
        case Skip => prev
        case NullPath => None
        case Entry(v) => if v in prev.value then prev else Some(prev.value + [v])
  }

  /** The rebuilt volume list: the system volumes, then the table's entries; None when it fails. */
  function Rebuilt(volumes: seq<string>, d: Dict<string, Record>): Option<seq<string>> {
    AddEntries(SystemVolumes(volumes), Contributions(d))
  }

  /** The rebuild keeps the starting volumes as a prefix and adds each new volume once. */
  lemma {:induction false} AddEntriesPrefix(volumes: seq<string>, cs: seq<Contribution>)
    requires AddEntries(volumes, cs).Some?
    ensures var r := AddEntries(volumes, cs).value;
      && |volumes| <= |r| && r[..|volumes|] == volumes
      && Distinct(r[|volumes|..])
      && (forall j :: |volumes| <= j < |r| ==> r[j] !in volumes)
  {
    if |cs| > 0 {
      var n := |cs| - 1;
      var p := AddEntries(volumes, cs[..n]).value;
      AddEntriesPrefix(volumes, cs[..n]);
      var r := AddEntries(volumes, cs).value;
      if r != p {
        assert r[..|volumes|] == p[..|volumes|];
        assert r[|volumes|..] == p[|volumes|..] + [r[|p|]];
      }
    }
  }

  /** Everything the rebuild adds is the entry of some table record. */
  lemma {:induction false} AddEntriesOnlyEntries(volumes: seq<string>, cs: seq<Contribution>)
    requires AddEntries(volumes, cs).Some?
    ensures forall v :: v in AddEntries(volumes, cs).value ==> v in volumes || Entry(v) in cs
  {
    if |cs| > 0 {
      var n := |cs| - 1;
      AddEntriesOnlyEntries(volumes, cs[..n]);
      forall v | v in AddEntries(volumes, cs).value
        ensures v in volumes || Entry(v) in cs
      {
        if v in AddEntries(volumes, cs[..n]).value && v !in volumes {
          assert Entry(v) in cs[..n];
        }
      }
    }
  }

  /** Every entry of the table ends up in the rebuilt list. */
  lemma {:induction false} AddEntriesHasEntries(volumes: seq<string>, cs: seq<Contribution>)
    requires AddEntries(volumes, cs).Some?
    ensures forall i :: 0 <= i < |cs| && cs[i].Entry? ==> cs[i].volume in AddEntries(volumes, cs).value
  {
    if |cs| > 0 {
      var n := |cs| - 1;
      AddEntriesHasEntries(volumes, cs[..n]);
      forall i | 0 <= i < |cs| && cs[i].Entry?
        ensures cs[i].volume in AddEntries(volumes, cs).value
      {
        if i < n {
          assert cs[i] == cs[..n][i];
        }
      }
    }
  }

  /** The rebuild fails exactly when some qualifying record has a null `local_path`. */
  lemma {:induction false} AddEntriesFailsIff(volumes: seq<string>, cs: seq<Contribution>)
    ensures AddEntries(volumes, cs).None? <==> NullPath in cs
  {
    if |cs| > 0 {
      var n := |cs| - 1;
      AddEntriesFailsIff(volumes, cs[..n]);
      assert cs == cs[..n] + [cs[n]];
    }
  }

  /**
   * The rebuilt list: the system volumes in their order, then each table entry once,
   * never one already among the system volumes, and nothing else.
   */
  lemma RebuiltShape(volumes: seq<string>, d: Dict<string, Record>)
    requires Rebuilt(volumes, d).Some?
    ensures var r := Rebuilt(volumes, d).value;
      var sys := SystemVolumes(volumes);
      && |sys| <= |r| && r[..|sys|] == sys
      && Distinct(r[|sys|..])
      && (forall v :: v in r[|sys|..] ==> !(v in volumes && !IsUserVolume(v)))
      && (forall v :: v in r ==> (v in volumes && !IsUserVolume(v)) || Entry(v) in Contributions(d))
      && (forall i :: 0 <= i < |d| && ContributionOf(d[i].0, d[i].1).Entry? ==> ContributionOf(d[i].0, d[i].1).volume in r)
  {
    var sys := SystemVolumes(volumes);
    var cs := Contributions(d);
    AddEntriesPrefix(sys, cs);
    AddEntriesOnlyEntries(sys, cs);
    AddEntriesHasEntries(sys, cs);
    var r := Rebuilt(volumes, d).value;
    forall v | v in r[|sys|..] ensures !(v in volumes && !IsUserVolume(v)) {
      var j :| 0 <= j < |r[|sys|..]| && r[|sys|..][j] == v;
      assert r[|sys| + j] == v;
    }
  }

  /**
   * The partition loop of `update_docker_compose`: the user volumes and the system
   * volumes, each in their original order.
   */
  method Partition(volumes: seq<string>) returns (systemVolumes: seq<string>, userVolumes: seq<string>)
    ensures systemVolumes == SystemVolumes(volumes)
    ensures forall v :: v in userVolumes <==> v in volumes && IsUserVolume(v)
    ensures |systemVolumes| + |userVolumes| == |volumes|
  {
    systemVolumes := [];
    userVolumes := [];
    var i := 0;
    while i < |volumes|
      invariant 0 <= i <= |volumes|
      invariant systemVolumes == SystemVolumes(volumes[..i])
      invariant forall v :: v in userVolumes <==> v in volumes[..i] && IsUserVolume(v)
      invariant |systemVolumes| + |userVolumes| == i
    {
      assert volumes[..i + 1] == volumes[..i] + [volumes[i]];
      if IsUserVolume(volumes[i]) {
        userVolumes := userVolumes + [volumes[i]];
      } else {
        systemVolumes := systemVolumes + [volumes[i]];
      }
      i := i + 1;
    }
    assert volumes[..i] == volumes;
  }

  /** The loop of `update_docker_compose` over the table; stops with None on a null path. */
  method AppendEntries(start: seq<string>, mountData: Dict<string, Record>) returns (r: Option<seq<string>>)
    ensures r == AddEntries(start, Contributions(mountData))
  {
    var newVolumes := start;
    var i := 0;
    while i < |mountData|
      invariant 0 <= i <= |mountData|
      invariant AddEntries(start, Contributions(mountData[..i])) == Some(newVolumes)
    {
      assert mountData[..i + 1][..i] == mountData[..i];
      var (key, info) := mountData[i];
      if ':' in key && "local_path" in Keys(info) {
        var (userId, workspaceId) := MountManager.KeyParts(key);
        var localPath := Get(info, "local_path").value;
        if localPath.None? {
          AddEntriesFailsIff(start, Contributions(mountData));
          assert Contributions(mountData)[i] == NullPath;
          return None;
        }
        var entry := HostPath(localPath.value) + ":" + "/workspace" + "/" + userId + "/" + workspaceId;
        if entry !in newVolumes {
          newVolumes := newVolumes + [entry];
        }
      }
      i := i + 1;
    }
    assert mountData[..i] == mountData;
    r := Some(newVolumes);
  }

  /**
   * `update_docker_compose`: True and the rebuilt list, or False and no list when it
   * fails. `volumes` is None when the compose file cannot be read or lacks
   * `services`/`openmanus-core-dev`/`volumes`; `written` says whether writing it back
   * succeeded; a local path that is not a string also fails the rebuild.
   */
  method UpdateDockerCompose(mountData: Dict<string, Record>, volumes: Option<seq<string>>, written: bool)
    returns (ok: bool, newVolumes: seq<string>)
    ensures ok <==> volumes.Some? && Rebuilt(volumes.value, mountData).Some? && written
    ensures newVolumes == if ok then Rebuilt(volumes.value, mountData).value else []
  {
    if volumes.None? {
      return false, [];
    }
    var systemVolumes, userVolumes := Partition(volumes.value);
    var r := AppendEntries(systemVolumes, mountData);
    if r.None? || !written {
      return false, [];
    }
    return true, r.value;
  }

  // ---------------------------------------------------------------------------
  // The HTTP handlers

  /** A handler's reply: the status code and, for a successful read or add, the mount. */
  datatype Reply = Reply(status: nat, data: Option<Record>)

  /** `f"{value}"` for a JSON string or null. */
  function Str(value: Option<string>): string {
    if value.Some? then value.value else "None"
  }

  /** The mount as a handler returns it: the ids as JSON values, then the stored fields over them. */
  function WithIds(userId: Option<string>, workspaceId: Option<string>, r: Record): Record {
    Merge([("user_id", userId), ("workspace_id", workspaceId)], r)
  }

  /** The record `add_mount` stores for a request. */
  function RequestRecord(userId: string, workspaceId: string, localPath: Option<string>,
                         description: Option<string>, createdAt: string): Record {
    [("local_path", localPath), ("container_path", Some(WORKSPACE_ROOT + "/" + userId + "/" + workspaceId)),
     ("description", description), ("created_at", Some(createdAt))]
  }

  /**
   * The mount `add_mount` replies with gives back the request's ids unchanged (a null
   * id stays null) and every stored field as stored, while the container path holds
   * the formatted ids.
   */
  lemma AddedMountReply(userId: Option<string>, workspaceId: Option<string>, localPath: Option<string>,
                        description: Option<string>, createdAt: string, k: string)
    ensures var r := RequestRecord(Str(userId), Str(workspaceId), localPath, description, createdAt);
      && Get(WithIds(userId, workspaceId, r), "user_id") == Some(userId)
      && Get(WithIds(userId, workspaceId, r), "workspace_id") == Some(workspaceId)
      && (k in Keys(r) ==> Get(WithIds(userId, workspaceId, r), k) == Get(r, k))
      && Get(r, "container_path") == Some(Some(WORKSPACE_ROOT + "/" + Str(userId) + "/" + Str(workspaceId)))
  {
    var r := RequestRecord(Str(userId), Str(workspaceId), localPath, description, createdAt);
    assert Keys(r) == ["local_path", "container_path", "description", "created_at"];
    MergeGet([("user_id", userId), ("workspace_id", workspaceId)], r, "user_id");
    MergeGet([("user_id", userId), ("workspace_id", workspaceId)], r, "workspace_id");
    MergeGet([("user_id", userId), ("workspace_id", workspaceId)], r, k);
  }

  /** The stored table of the monitor, as the handlers load and save it. */
  class MountStore {
    var mountData: Dict<string, Record>

    constructor(loaded: Dict<string, Record>)
      ensures mountData == loaded
    {
      mountData := loaded;
    }

    /** `get_mount`: 200 with the mount, or 404 when the key is absent. */
    method GetMount(userId: string, workspaceId: string) returns (reply: Reply)
      ensures var key := MountManager.MountKey(userId, workspaceId);
        reply == if key in Keys(mountData) then Reply(200, Some(WithIds(Some(userId), Some(workspaceId), Get(mountData, key).value)))
                 else Reply(404, None)
    {
      var key := userId + ":" + workspaceId;
      if key in Keys(mountData) {
        return Reply(200, Some(WithIds(Some(userId), Some(workspaceId), Get(mountData, key).value)));
      }
      return Reply(404, None);
    }

    /**
     * `add_mount`: 400 when `user_id`, `workspace_id` or `local_path` is missing from the
     * request; otherwise the key is set to a new record, replacing any earlier one, and
     * the reply is 200 when the table is saved and 500 when it is not (the table then
     * keeps its old content). The key and the container path format the ids, so a
     * null id reads "None" there; the reply carries the ids as the request gave them.
     */
    method AddMount(request: Dict<string, Option<string>>, createdAt: string, saved: bool) returns (reply: Reply)
      modifies this`mountData
      ensures !("user_id" in Keys(request) && "workspace_id" in Keys(request) && "local_path" in Keys(request)) ==>
        reply == Reply(400, None) && mountData == old(mountData)
      ensures "user_id" in Keys(request) && "workspace_id" in Keys(request) && "local_path" in Keys(request) ==>
        var u := Str(Get(request, "user_id").value);
        var w := Str(Get(request, "workspace_id").value);
        var r := RequestRecord(u, w, Get(request, "local_path").value,
                               if "description" in Keys(request) then Get(request, "description").value else None, createdAt);
        && mountData == (if saved then Put(old(mountData), MountManager.MountKey(u, w), r) else old(mountData))
        && reply == (if saved then Reply(200, Some(WithIds(Get(request, "user_id").value, Get(request, "workspace_id").value, r)))
                     else Reply(500, None))
    {
      if !("user_id" in Keys(request) && "workspace_id" in Keys(request) && "local_path" in Keys(request)) {
        return Reply(400, None);
      }
      var userId := Str(Get(request, "user_id").value);
      var workspaceId := Str(Get(request, "workspace_id").value);
      var localPath := Get(request, "local_path").value;
      var description := if "description" in Keys(request) then Get(request, "description").value else None;
      var key := userId + ":" + workspaceId;
      var info := RequestRecord(userId, workspaceId, localPath, description, createdAt);
      if !saved {
        return Reply(500, None);
      }
      mountData := Put(mountData, key, info);
      PutGet(old(mountData), key, info, key);
      return Reply(200, Some(WithIds(Get(request, "user_id").value, Get(request, "workspace_id").value, info)));
    }

    /**
     * `remove_mount`: 404 when the key is absent; otherwise only that key is deleted,
     * with 200 when the table is saved and 500 (and no change) when it is not.
     */
    method RemoveMount(userId: string, workspaceId: string, saved: bool) returns (reply: Reply)
      modifies this`mountData
      ensures var key := MountManager.MountKey(userId, workspaceId);
        && reply.status == (if key !in Keys(old(mountData)) then 404 else if saved then 200 else 500)
        && reply.data.None?
        && mountData == (if reply.status == 200 then Remove(old(mountData), key) else old(mountData))
    {
      var key := userId + ":" + workspaceId;
      if key !in Keys(mountData) {
        return Reply(404, None);
      }
      if !saved {
        return Reply(500, None);
      }
      mountData := Remove(mountData, key);
      return Reply(200, None);
    }
  }

  /** The mount returned after an add is found by a later `get_mount`, with the same content. */
  lemma AddThenGetMount(d: Dict<string, Record>, userId: string, workspaceId: string, r: Record)
    ensures var key := MountManager.MountKey(userId, workspaceId);
      var d' := Put(d, key, r);
      key in Keys(d') && Get(d', key) == Some(r)
  {
    var key := MountManager.MountKey(userId, workspaceId);
    PutGet(d, key, r, key);
  }

  /** `remove_mount` deletes only its own key. */
  lemma RemoveOnlyThatKey(d: Dict<string, Record>, userId: string, workspaceId: string, k: string)
    requires k != MountManager.MountKey(userId, workspaceId)
    ensures Get(Remove(d, MountManager.MountKey(userId, workspaceId)), k) == Get(d, k)
    ensures Get(Remove(d, MountManager.MountKey(userId, workspaceId)), MountManager.MountKey(userId, workspaceId)) == None
  {
    RemoveGet(d, MountManager.MountKey(userId, workspaceId), k);
    RemoveGet(d, MountManager.MountKey(userId, workspaceId), MountManager.MountKey(userId, workspaceId));
  }

  /**
   * A mount added through `add_mount` for a user id without ":" and a non-null path
   * contributes `<path>:/workspace/<user>/<workspace>` to the next rebuild.
   */
  lemma AddedMountContributes(userId: string, workspaceId: string, localPath: string,
                              description: Option<string>, createdAt: string)
    requires ':' !in userId
    ensures ContributionOf(MountManager.MountKey(userId, workspaceId),
                           RequestRecord(userId, workspaceId, Some(localPath), description, createdAt))
         == Entry(HostPath(localPath) + ":" + WORKSPACE_ROOT + "/" + userId + "/" + workspaceId)
  {
    var key := MountManager.MountKey(userId, workspaceId);
    var r := RequestRecord(userId, workspaceId, Some(localPath), description, createdAt);
    assert Keys(r)[0] == "local_path";
    MountManager.KeyPartsOfKey(userId, workspaceId);
  }
}
