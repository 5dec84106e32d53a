/**
 * `loadScratch3Project`: the manifest is fetched as JSON and checked, the costumes and sounds
 * of every target are deduplicated by `md5ext`, every remaining asset is fetched, and the
 * archive is `project.json` plus the asset files, sorted.
 */
module Scratch3 {
  import opened Wrappers
  import opened Manifest
  import opened Dedup
  import opened FileSort
  import opened Promises

  /** The URL of the projects API for a Scratch 3 project. */
  function ProjectUrl(id: string): string {
    "https://projects.scratch.mit.edu/" + id
  }

  /** The URL of one asset of a Scratch 3 project. */
  function AssetUrl(path: string): string {
    "https://assets.scratch.mit.edu/internalapi/asset/" + path + "/get/"
  }

  /** The deduplication key of an asset, `i.md5ext`; an absent one is a key of its own. */
  function Keys(assets: seq<Sb3Asset>): (keys: seq<Option<string>>)
    ensures |keys| == |assets|
    ensures forall q :: 0 <= q < |assets| ==> keys[q] == assets[q].md5ext
  {
    seq(|assets|, q requires 0 <= q < |assets| => assets[q].md5ext)
  }

  lemma KeysSnoc(assets: seq<Sb3Asset>, x: Sb3Asset)
    ensures Keys(assets + [x]) == Keys(assets) + [x.md5ext]
  {
  }

  /**
   * The reference definition of `dedupeAssets`: every asset whose key no earlier asset has,
   * in input order.
   */
  function KeepFirst(assets: seq<Sb3Asset>): (kept: seq<Sb3Asset>)
    ensures |kept| <= |assets|
    ensures forall q :: 0 <= q < |kept| ==> kept[q] in assets
  {
    if assets == [] then []
    else
      var p, x := assets[..|assets| - 1], assets[|assets| - 1];
      if x.md5ext in Keys(p) then KeepFirst(p) else KeepFirst(p) + [x]
  }

  /**
   * KeepFirst keeps one asset per key, keys in the order they first occur, and the asset it
   * keeps for a key is the first input with that key.
   */
  lemma {:induction false} KeepFirstSpec(assets: seq<Sb3Asset>)
    ensures Keys(KeepFirst(assets)) == Distinct(Keys(assets))
    ensures forall q :: 0 <= q < |KeepFirst(assets)| ==>
              var f := FirstIndex(Keys(assets), KeepFirst(assets)[q].md5ext);
              f < |assets| && KeepFirst(assets)[q] == assets[f]
  {
    if assets != [] {
      var p, x := assets[..|assets| - 1], assets[|assets| - 1];
      assert assets == p + [x];
      KeepFirstSpec(p);
      KeysSnoc(p, x);
      DistinctSnoc(Keys(p), x.md5ext);
      var kept := KeepFirst(assets);
      var kp := KeepFirst(p);
      forall q | 0 <= q < |kept|
        ensures FirstIndex(Keys(assets), kept[q].md5ext) < |assets|
        ensures kept[q] == assets[FirstIndex(Keys(assets), kept[q].md5ext)]
      {
        FirstIndexSnoc(Keys(p), x.md5ext, kept[q].md5ext);
        if q < |kp| {
          assert kept[q] == kp[q];
          assert kp[q].md5ext in Distinct(Keys(p)) by {
            assert Keys(kp)[q] == kp[q].md5ext;
          }
        } else {
          assert kept[q] == x && x.md5ext !in Keys(p);
        }
      }
      if x.md5ext !in Keys(p) {
        KeysSnoc(kp, x);
      }
    }
  }

  /** `dedupeAssets`: walks the assets once, keeping those whose `md5ext` was not seen. */
  method DedupeAssets(assets: seq<Sb3Asset>) returns (result: seq<Sb3Asset>)
    ensures result == KeepFirst(assets)
  {
    result := [];
    var knownIds: set<Option<string>> := {};
    for n := 0 to |assets|
      invariant result == KeepFirst(assets[..n])
      invariant forall k :: k in knownIds <==> k in Keys(assets[..n])
    {
      var i := assets[n];
      assert assets[..n + 1] == assets[..n] + [i];
      assert assets[..n + 1][..n] == assets[..n];
      KeysSnoc(assets[..n], i);
      if i.md5ext in knownIds {
        continue;
      }
      knownIds := knownIds + {i.md5ext};
      result := result + [i];
    }
    assert assets[..|assets|] == assets;
  }

  /** `data.md5ext || data.assetId + '.' + data.dataFormat`: an absent part reads "undefined". */
  function AssetPath(a: Sb3Asset): string {
    if Truthy(a.md5ext) then a.md5ext.value else JsString(a.assetId) + "." + JsString(a.dataFormat)
  }

  /** Two kept assets that both carry an `md5ext` are stored under different paths. */
  lemma KeptPathsDistinct(assets: seq<Sb3Asset>, i: nat, j: nat)
    requires i < j < |KeepFirst(assets)|
    requires Truthy(KeepFirst(assets)[i].md5ext) && Truthy(KeepFirst(assets)[j].md5ext)
    ensures AssetPath(KeepFirst(assets)[i]) != AssetPath(KeepFirst(assets)[j])
  {
    KeepFirstSpec(assets);
    var kept := KeepFirst(assets);
    assert Keys(kept)[i] == kept[i].md5ext && Keys(kept)[j] == kept[j].md5ext;
  }

  /**
   * `dedupeAssets` keeps the relative order of what it keeps: the kept assets sit at
   * increasing positions of the input.
   */
  lemma KeepFirstInOrder(assets: seq<Sb3Asset>)
    ensures forall i, j :: 0 <= i < j < |KeepFirst(assets)| ==>
              FirstIndex(Keys(assets), KeepFirst(assets)[i].md5ext) < FirstIndex(Keys(assets), KeepFirst(assets)[j].md5ext)
  {
    KeepFirstSpec(assets);
    DistinctFirstOccurrenceOrder(Keys(assets));
    var kept := KeepFirst(assets);
    forall i, j | 0 <= i < j < |kept|
      ensures FirstIndex(Keys(assets), kept[i].md5ext) < FirstIndex(Keys(assets), kept[j].md5ext)
    {
      assert Keys(kept)[i] == kept[i].md5ext && Keys(kept)[j] == kept[j].md5ext;
    }
  }

  /**
   * Assets without an `md5ext` all share the key `undefined`: at most one of them survives
   * deduplication, however different their `assetId`s are.
   */
  lemma KeepFirstOneUnkeyed(assets: seq<Sb3Asset>)
    ensures forall i, j :: 0 <= i < j < |KeepFirst(assets)| ==>
              KeepFirst(assets)[i].md5ext.Some? || KeepFirst(assets)[j].md5ext.Some?
  {
    KeepFirstSpec(assets);
    var kept := KeepFirst(assets);
    forall i, j | 0 <= i < j < |kept|
      ensures kept[i].md5ext.Some? || kept[j].md5ext.Some?
    {
      assert Keys(kept)[i] == kept[i].md5ext && Keys(kept)[j] == kept[j].md5ext;
    }
  }

  /** The costumes of every target, then the sounds of every target. */
  function CostumesOf(ts: seq<Sb3Target>): seq<Sb3Asset> {
    if ts == [] then [] else ts[0].costumes + CostumesOf(ts[1..])
  }

  function SoundsOf(ts: seq<Sb3Target>): seq<Sb3Asset> {
    if ts == [] then [] else ts[0].sounds + SoundsOf(ts[1..])
  }

  /** What the promise of `addFile(a)` settles to: the fetched bytes under the asset's path. */
  function FetchedFile(a: Sb3Asset, fetchAsset: string -> Option<Bytes>): (r: Result<FileEntry, Error>)
    ensures r.Success? <==> fetchAsset(AssetUrl(AssetPath(a))).Some?
    ensures r.Success? ==> r.value == FileEntry(AssetPath(a), Binary(fetchAsset(AssetUrl(AssetPath(a))).value))
    ensures r.Failure? ==> r.error == NetworkError(AssetUrl(AssetPath(a)))
  {
    var url := AssetUrl(AssetPath(a));
    var body := fetchAsset(url);
    if body.None? then Failure(NetworkError(url)) else Success(FileEntry(AssetPath(a), Binary(body.value)))
  }

  /** `assets.map((a) => addFile(a))`. */
  function AddFiles(assets: seq<Sb3Asset>, fetchAsset: string -> Option<Bytes>): (promises: seq<Result<FileEntry, Error>>)
    ensures |promises| == |assets|
    ensures forall j :: 0 <= j < |assets| ==> promises[j] == FetchedFile(assets[j], fetchAsset)
  {
    seq(|assets|, j requires 0 <= j < |assets| => FetchedFile(assets[j], fetchAsset))
  }

  /**
   * When every kept asset carries an `md5ext`, the files `Promise.all` gathers are one per
   * kept asset and stored under pairwise distinct paths: no asset is archived twice.
   */
  lemma GatheredPathsDistinct(assets: seq<Sb3Asset>, fetchAsset: string -> Option<Bytes>)
    requires forall a :: a in KeepFirst(assets) ==> Truthy(a.md5ext)
    requires PromiseAll(AddFiles(KeepFirst(assets), fetchAsset)).Success?
    ensures |PromiseAll(AddFiles(KeepFirst(assets), fetchAsset)).value| == |KeepFirst(assets)|
    ensures DistinctPaths(PromiseAll(AddFiles(KeepFirst(assets), fetchAsset)).value)
  {
    var kept := KeepFirst(assets);
    var promises := AddFiles(kept, fetchAsset);
    var files := PromiseAll(promises).value;
    forall i, j | 0 <= i < j < |files|
      ensures files[i].path != files[j].path
    {
      assert files[i] == promises[i].value && files[j] == promises[j].value;
      assert kept[i] in kept && kept[j] in kept;
      KeptPathsDistinct(assets, i, j);
    }
  }

  /** The body of the projects API response, as `request.json()` reads it. */
  datatype Sb3Body =
    | NotJson                   // `request.json()` rejects
    | JsonNull                  // `null`, whose properties cannot be read
    | JsonValue(project: Sb3Project)  // any other JSON value; a non-object has neither property

  /** The TypeError reading `objName` of `null` raises. */
  const NullTypeError: string := "Cannot read properties of null (reading 'objName')"

  /** The assets `loadScratch3Project` fetches: costumes, then sounds, deduplicated. */
  function ProjectAssets(targets: seq<Sb3Target>): seq<Sb3Asset> {
    KeepFirst(CostumesOf(targets) + SoundsOf(targets))
  }

  /**
   * How `loadScratch3Project` settles: a rejected request or a body that is not JSON rejects;
   * a string `objName` means a Scratch 2 project; `targets` must be an array; then every
   * deduplicated asset is fetched, and the archive is `project.json` and the asset files, sorted.
   */
  predicate Sb3Loaded(id: string, body: Option<Sb3Body>, fetchAsset: string -> Option<Bytes>,
                      r: Result<LoadResult, Error>)
  {
    match body
    case None => r == Failure(NetworkError(ProjectUrl(id)))
    case Some(NotJson) => r == Failure(SyntaxError)
    case Some(JsonNull) => r == Failure(TypeError(NullTypeError))
    case Some(JsonValue(p)) =>
      if p.objName.Present? then
        r == Failure(FormatError("Not a Scratch 3 project (found objName)", "sb2"))
      else if !p.targets.Present? then
        r == Failure(PlainError("Not a Scratch 3 project, missing targets"))
      else
        var assets := ProjectAssets(p.targets.value);
        if exists j :: 0 <= j < |assets| && fetchAsset(AssetUrl(AssetPath(assets[j]))).None? then
          exists j :: 0 <= j < |assets| && fetchAsset(AssetUrl(AssetPath(assets[j]))).None?
                      && r == Failure(NetworkError(AssetUrl(AssetPath(assets[j]))))
        else
          && r.Success? && r.value.Zip? && r.value == Zip(id, "sb3", r.value.files)
          && Sorted(r.value.files)
          && multiset(r.value.files) ==
             multiset([FileEntry(ProjectJsonPath, Sb3Json(p))] + PromiseAll(AddFiles(assets, fetchAsset)).value)
  }

  /**
   * `loadScratch3Project`: `body` is the settled fetch of the projects API (`None` when the
   * request rejected); `fetchAsset` stands for the asset requests.
   */
  method LoadScratch3Project(id: string, body: Option<Sb3Body>, fetchAsset: string -> Option<Bytes>)
    returns (r: Result<LoadResult, Error>)
    ensures Sb3Loaded(id, body, fetchAsset, r)
  {
    if body.None? {
      return Failure(NetworkError(ProjectUrl(id)));
    }
    match body.value
    case NotJson =>
      r := Failure(SyntaxError);
    case JsonNull =>
      r := Failure(TypeError(NullTypeError));
    case JsonValue(p) =>
      if p.objName.Present? {
        return Failure(FormatError("Not a Scratch 3 project (found objName)", "sb2"));
      }
      if !p.targets.Present? {
        return Failure(PlainError("Not a Scratch 3 project, missing targets"));
      }
      var targets := p.targets.value;
      var assets := DedupeAssets(CostumesOf(targets) + SoundsOf(targets));
      var promises := AddFiles(assets, fetchAsset);
      var all := PromiseAll(promises);
      if all.Failure? {
        var j :| 0 <= j < |promises| && promises[j] == Failure(all.error);
        return Failure(all.error);
      }
      var files := [FileEntry(ProjectJsonPath, Sb3Json(p))] + all.value;
      var z := SortedArchive(id, "sb3", files);
      r := Success(z);
  }

  /**
   * In a loaded Scratch 3 archive whose asset paths are not `project.json`, the manifest is
   * the first file and no other file is `project.json`.
   */
  lemma Sb3ProjectJsonFirst(id: string, p: Sb3Project, fetchAsset: string -> Option<Bytes>, r: Result<LoadResult, Error>)
    requires Sb3Loaded(id, Some(JsonValue(p)), fetchAsset, r) && r.Success?
    requires p.targets.Present?
    requires forall a :: a in ProjectAssets(p.targets.value) ==> AssetPath(a) != ProjectJsonPath
    ensures r.value.Zip? && |r.value.files| > 0 && r.value.files[0] == FileEntry(ProjectJsonPath, Sb3Json(p))
    ensures forall i :: 0 < i < |r.value.files| ==> r.value.files[i].path != ProjectJsonPath
  {
    var assets := ProjectAssets(p.targets.value);
    var pending := PromiseAll(AddFiles(assets, fetchAsset)).value;
    var pj := FileEntry(ProjectJsonPath, Sb3Json(p));
    var files := r.value.files;
    forall q | 0 <= q < |pending|
      ensures pending[q].path != ProjectJsonPath
    {
      assert pending[q] == FetchedFile(assets[q], fetchAsset).value;
      assert assets[q] in assets;
    }
    assert pj in multiset(files);
    var k :| 0 <= k < |files| && files[k] == pj;
    SortedLayout(files, k);
    assert pj !in pending;
    assert multiset([pj] + pending)[pj] == 1;
    forall i | 0 < i < |files|
      ensures files[i].path != ProjectJsonPath
    {
      if files[i].path == ProjectJsonPath {
        assert files[i] in multiset([pj] + pending);
        assert files[i] == pj;
        RepeatCounted(files, 0, i);
      }
    }
  }
}
