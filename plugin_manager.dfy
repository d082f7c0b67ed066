/**
 * The file-preview plugin registry of the web client: manifests are loaded one by
 * one into a map keyed by plugin name, and a file type is matched against the
 * manifests' `fileTypes` in the map's insertion order.
 *
 * Fetching a manifest and loading its styles and script are inputs here: each load is
 * described by what the fetch returned and whether the resources loaded.
 */
module PluginManager {
  import opened Wrappers
  import opened Text
  import opened Dicts

  const PLUGIN_PATH := "/file-preview-plugins"

  /** `FilePreviewPluginManifest`. */
  datatype Manifest = Manifest(
    name: string, version: string, description: string, author: string,
    fileTypes: seq<string>, entryPoint: string,
    styles: Option<seq<string>>, permissions: Option<seq<string>>)

  /**
   * What loading one plugin met: the manifest fetch failed, or it returned a
   * manifest and the plugin's styles and script then loaded or not.
   */
  datatype LoadOutcome = ManifestFailed | Fetched(manifest: Manifest, resourcesLoaded: bool)

  predicate Succeeds(o: LoadOutcome) {
    o.Fetched? && o.resourcesLoaded
  }

  /** `loadPlugin` on a map: a fetched manifest is stored under its name, even if its resources then fail. */
  function LoadStep(plugins: Dict<string, Manifest>, o: LoadOutcome): Dict<string, Manifest> {
    if o.Fetched? then Put(plugins, o.manifest.name, o.manifest) else plugins
  }

  /** `loadAllPlugins`: the loads in order, up to and including the first that fails. */
  function LoadAll(plugins: Dict<string, Manifest>, outcomes: seq<LoadOutcome>): (Dict<string, Manifest>, bool)
    decreases |outcomes|
  {
    if |outcomes| == 0 then (plugins, true)
    else
      var next := LoadStep(plugins, outcomes[0]);
      if Succeeds(outcomes[0]) then LoadAll(next, outcomes[1..]) else (next, false)
  }

  /** Loading all plugins succeeds exactly when every load succeeds. */
  lemma {:induction false} LoadAllSucceedsIff(plugins: Dict<string, Manifest>, outcomes: seq<LoadOutcome>)
    ensures LoadAll(plugins, outcomes).1 <==> forall i :: 0 <= i < |outcomes| ==> Succeeds(outcomes[i])
    decreases |outcomes|
  {
    if |outcomes| > 0 {
      LoadAllSucceedsIff(LoadStep(plugins, outcomes[0]), outcomes[1..]);
      if forall i :: 0 <= i < |outcomes| - 1 ==> Succeeds(outcomes[1..][i]) {
        forall i | 0 < i < |outcomes| ensures Succeeds(outcomes[i]) {
          assert outcomes[i] == outcomes[1..][i - 1];
        }
      }
    }
  }

  /** The loads after the first failure never happen. */
  lemma {:induction false} LoadAllStopsAtFailure(plugins: Dict<string, Manifest>, outcomes: seq<LoadOutcome>, k: nat)
    requires k < |outcomes| && !Succeeds(outcomes[k])
    requires forall i :: 0 <= i < k ==> Succeeds(outcomes[i])
    ensures LoadAll(plugins, outcomes) == LoadAll(plugins, outcomes[..k + 1])
    decreases k
  {
    if k > 0 {
      var rest := outcomes[1..];
      assert outcomes[..k + 1][1..] == rest[..k];
      assert rest[..k][..k] == rest[..k];
      LoadAllStopsAtFailure(LoadStep(plugins, outcomes[0]), rest, k - 1);
    }
  }

  /** The first manifest of `ms` that `p` accepts, as `Array.prototype.find`. */
  function Find(ms: seq<Manifest>, p: Manifest -> bool): (r: Option<Manifest>)
    ensures r.None? <==> forall i :: 0 <= i < |ms| ==> !p(ms[i])
    ensures r.Some? ==> exists i :: 0 <= i < |ms| && ms[i] == r.value && p(ms[i]) && forall j :: 0 <= j < i ==> !p(ms[j])
  {
    if |ms| == 0 then None
    else if p(ms[0]) then Some(ms[0])
    else
      var r := Find(ms[1..], p);
      if r.Some? then
        var i :| 0 <= i < |ms[1..]| && ms[1..][i] == r.value && p(ms[1..][i]) && forall j :: 0 <= j < i ==> !p(ms[1..][j]);
        assert forall j :: 1 <= j < i + 1 ==> ms[j] == ms[1..][j - 1];
        r
      else
        assert forall i :: 1 <= i < |ms| ==> ms[i] == ms[1..][i - 1];
        r
  }

  predicate HandlesHtml(m: Manifest) {
    "html" in m.fileTypes || "htm" in m.fileTypes
  }

  /** `getPluginForFileType` over the manifests in the map's order. */
  function PluginFor(plugins: Dict<string, Manifest>, fileType: string): Option<Manifest> {
    var normalized := Lower(fileType);
    var all := Values(plugins);
    var html := if normalized == "html" || normalized == "htm" then Find(all, HandlesHtml) else None;
    if html.Some? then html else Find(all, (m: Manifest) => normalized in m.fileTypes)
  }

  /** Lookup lower-cases the query, so its case never matters. */
  lemma PluginForIgnoresQueryCase(plugins: Dict<string, Manifest>, fileType: string)
    ensures PluginFor(plugins, fileType) == PluginFor(plugins, Lower(fileType))
  {
    LowerIdempotent(fileType);
  }

  /**
   * The manifests' file types are not lower-cased: a manifest whose every file type
   * has an upper-case letter is never returned.
   */
  lemma UpperCaseTypesNeverMatch(plugins: Dict<string, Manifest>, fileType: string, m: Manifest)
    requires forall t :: t in m.fileTypes ==> exists i :: 0 <= i < |t| && 'A' <= t[i] <= 'Z'
    ensures PluginFor(plugins, fileType) != Some(m)
  {
    var normalized := Lower(fileType);
    LowerHasNoUpper(fileType);
    forall t | t in m.fileTypes
      ensures t != normalized && t != "html" && t != "htm"
    {
      var i :| 0 <= i < |t| && 'A' <= t[i] <= 'Z';
      if i < |normalized| {
        assert t[i] != normalized[i];
      }
    }
  }

  /**
   * For "html" or "htm" in any case, the first manifest handling either wins, even
   * when a later one lists the exact type asked for; otherwise the first manifest
   * listing the lower-cased type, or none.
   */
  lemma PluginForCases(plugins: Dict<string, Manifest>, fileType: string)
    ensures var normalized := Lower(fileType);
      var all := Values(plugins);
      PluginFor(plugins, fileType) ==
        if (normalized == "html" || normalized == "htm") && exists i :: 0 <= i < |all| && HandlesHtml(all[i])
        then Find(all, HandlesHtml)
        else Find(all, (m: Manifest) => normalized in m.fileTypes)
  {
  }

  class FilePreviewPluginManager {
    var plugins: Dict<string, Manifest>

    constructor()
      ensures plugins == []
    {
      plugins := [];
    }

    /**
     * `loadPlugin`: a fetched manifest is stored under its name, replacing a manifest
     * of the same name; the call fails when the fetch or the resources fail.
     */
    method LoadPlugin(o: LoadOutcome) returns (ok: bool)
      modifies this`plugins
      ensures plugins == LoadStep(old(plugins), o)
      ensures ok == Succeeds(o)
      ensures o.Fetched? ==> Get(plugins, o.manifest.name) == Some(o.manifest)
    {
      match o {
        case ManifestFailed =>
          return false;
        case Fetched(manifest, resourcesLoaded) =>
          plugins := Put(plugins, manifest.name, manifest);
          PutGet(old(plugins), manifest.name, manifest, manifest.name);
          return resourcesLoaded;
      }
    }

    /** `loadAllPlugins`: the loads one after another, stopping at the first failure. */
    method LoadAllPlugins(outcomes: seq<LoadOutcome>) returns (ok: bool)
      modifies this`plugins
      ensures (plugins, ok) == LoadAll(old(plugins), outcomes)
    {
      var i := 0;
      while i < |outcomes|
        invariant 0 <= i <= |outcomes|
        invariant LoadAll(old(plugins), outcomes) == LoadAll(plugins, outcomes[i..])
      {
        assert outcomes[i..][1..] == outcomes[i + 1..];
        var loaded := LoadPlugin(outcomes[i]);
        if !loaded {
          return false;
        }
        i := i + 1;
      }
      return true;
    }

    /** `getPluginForFileType`. */
    method GetPluginForFileType(fileType: string) returns (plugin: Option<Manifest>)
      ensures plugin == PluginFor(plugins, fileType)
      ensures plugin.Some? ==> plugin.value in Values(plugins)
    {
      var normalizedType := Lower(fileType);
      if normalizedType == "html" || normalizedType == "htm" {
        var htmlPlugin := Find(Values(plugins), HandlesHtml);
        if htmlPlugin.Some? {
          return htmlPlugin;
        }
      }
      plugin := Find(Values(plugins), (m: Manifest) => normalizedType in m.fileTypes);
    }
  }
}
