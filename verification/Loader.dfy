/**
 * Choosing a format: `loadProject` hands a type tag to one of the three loaders, the packer's
 * `_getProjectTypeById` guesses the tag from the first response of the projects API, and
 * `_resultToBlob` turns what a loader produced into the blob it packs.
 */
module Loader {
  import opened Wrappers
  import opened Strings
  import opened Manifest
  import opened Magic
  import opened FileSort
  import Scratch2
  import Scratch3

  datatype ProjectType = Sb | Sb2 | Sb3

  /** The tag of each format, which is also the key of its loader in `loaders`. */
  function TypeName(t: ProjectType): string {
    match t
    case Sb => "sb"
    case Sb2 => "sb2"
    case Sb3 => "sb3"
  }

  /**
   * The tag check of `loadProject` as intended: a tag selects the loader stored under it,
   * and any tag that names no format is rejected.
   */
  function SelectLoader(tag: string): (r: Result<ProjectType, Error>)
    ensures r.Success? ==> TypeName(r.value) == tag
    ensures r.Failure? ==> r.error == PlainError("Unknown type: " + tag) && forall t :: TypeName(t) != tag
  {
    if tag == "sb" then Success(Sb)
    else if tag == "sb2" then Success(Sb2)
    else if tag == "sb3" then Success(Sb3)
    else Failure(PlainError("Unknown type: " + tag))
  }

  /** Every format's tag selects that format's loader, and no other tag selects it. */
  lemma SelectLoaderRoundTrip(t: ProjectType, tag: string)
    ensures SelectLoader(TypeName(t)) == Success(t)
    ensures SelectLoader(tag) == Success(t) ==> tag == TypeName(t)
  {
  }

  /**
   * The properties every plain object inherits from `Object.prototype`. The `in` operator
   * looks along the prototype chain, so `name in loaders` holds for each of them.
   */
  const InheritedNames: set<string> := {
    "constructor", "__defineGetter__", "__defineSetter__", "hasOwnProperty", "__lookupGetter__",
    "__lookupSetter__", "isPrototypeOf", "propertyIsEnumerable", "toString", "valueOf",
    "__proto__", "toLocaleString"
  }

  /** What `loaders[tag]` turns out to be once `tag in loaders` has let `tag` through. */
  datatype Lookup = OwnLoader(t: ProjectType) | Inherited(name: string) | Missing

  /**
   * The tag check of `loadProject` as written: an own key of `loaders` finds its loader, an
   * inherited name finds a method of `Object.prototype` (which is then called with the project
   * ID instead of a loader), and only the remaining tags are rejected.
   */
  function LookupAsWritten(tag: string): (l: Lookup)
    ensures l.Missing? <==> (forall t :: TypeName(t) != tag) && tag !in InheritedNames
    ensures l.OwnLoader? ==> TypeName(l.t) == tag
    ensures l.Inherited? ==> l.name == tag && tag in InheritedNames
  {
    match SelectLoader(tag)
    case Success(t) => OwnLoader(t)
    case Failure(_) => if tag in InheritedNames then Inherited(tag) else Missing
  }

  /** The tag "toString" passes the check as written, though no loader is stored under it. */
  lemma InheritedNameLetThrough()
    ensures LookupAsWritten("toString") == Inherited("toString")
    ensures SelectLoader("toString") == Failure(PlainError("Unknown type: toString"))
  {
    assert "toString" in InheritedNames;
    assert forall t :: TypeName(t) != "toString";
    assert "Unknown type: " + "toString" == "Unknown type: toString";
  }

  /** Apart from the inherited names, the check as written and as intended agree. */
  lemma LookupAgreesOutsideInheritedNames(tag: string)
    requires tag !in InheritedNames
    ensures LookupAsWritten(tag).Missing? <==> SelectLoader(tag).Failure?
    ensures SelectLoader(tag).Success? ==> LookupAsWritten(tag) == OwnLoader(SelectLoader(tag).value)
  {
  }

  /**
   * `loadProject`: each loader reads its own response. `sb1Body` is the Scratch 1 fetch,
   * `sb2Response` the Scratch 2 fetch, `sb3Body` the Scratch 3 fetch, and `fetchAsset`
   * answers the asset requests; a tag that selects no loader is rejected before any of them.
   */
  method LoadProject(id: string, tag: string, sb1Body: Option<Bytes>,
                     sb2Response: Option<Response<Scratch2.Sb2Body>>, sb3Body: Option<Scratch3.Sb3Body>,
                     fetchAsset: string -> Option<Bytes>)
    returns (r: Result<LoadResult, Error>)
    modifies Scratch2.ResponseObjects(sb2Response)
    ensures SelectLoader(tag).Failure? ==> r == Failure(PlainError("Unknown type: " + tag))
    ensures SelectLoader(tag) == Success(Sb) ==> Sb1Loaded(id, sb1Body, r)
    ensures SelectLoader(tag) == Success(Sb2) ==>
              Scratch2.Sb2Loaded(id, sb2Response, fetchAsset, old(Scratch2.ResponseSnapshot(sb2Response)), r)
    ensures SelectLoader(tag) == Success(Sb3) ==> Scratch3.Sb3Loaded(id, sb3Body, fetchAsset, r)
  {
    var loader := SelectLoader(tag);
    if loader.Failure? {
      return Failure(loader.error);
    }
    match loader.value
    case Sb =>
      r := LoadScratch1Project(id, sb1Body);
    case Sb2 =>
      r := Scratch2.LoadScratch2Project(id, sb2Response, fetchAsset);
    case Sb3 =>
      r := Scratch3.LoadScratch3Project(id, sb3Body, fetchAsset);
  }

  /**
   * The body of `https://projects.scratch.mit.edu/{id}` as `_getProjectTypeById` reads it:
   * not JSON (and then whether a zip reader accepts it), a JSON value `in` cannot search
   * (null, a number, a string, a boolean), or an object with its own keys.
   */
  datatype ProbeBody = NotJson(isZip: bool) | JsonPrimitive | JsonObject(keys: set<string>)

  /** The TypeError of `'targets' in data` when `data` is not an object. */
  const InTypeError: string := "Cannot use 'in' operator to search for 'targets'"

  /**
   * `_getProjectTypeById`, on the settled fetch (`None` when the request rejected): 404 and
   * other failing statuses give different errors, a body that is not JSON is a Scratch 2
   * project when it is a zip and a Scratch 1 project otherwise, and a JSON object is a Scratch 3
   * project when it has `targets` (whatever else it has), a Scratch 2 one when it has only
   * `objName`, and of unknown type when it has neither.
   */
  function SniffProjectType(id: string, response: Option<Response<ProbeBody>>): (r: Result<ProjectType, Error>)
    ensures response.None? ==> r == Failure(NetworkError(Scratch3.ProjectUrl(id)))
    ensures response.Some? && response.value.status == 404 ==>
              r == Failure(PlainError("Project does not exist: " + id))
    ensures response.Some? && response.value.status !in {200, 404} ==>
              r == Failure(PlainError("Cannot get project, got error code: " + NatToString(response.value.status)))
    ensures r == Success(Sb3) <==>
              response.Some? && response.value.status == 200 && response.value.body.JsonObject?
              && "targets" in response.value.body.keys
    ensures r == Success(Sb) <==> response.Some? && response.value.status == 200 && response.value.body == NotJson(false)
  {
    if response.None? then Failure(NetworkError(Scratch3.ProjectUrl(id)))
    else if response.value.status != 200 then
      if response.value.status == 404 then Failure(PlainError("Project does not exist: " + id))
      else Failure(PlainError("Cannot get project, got error code: " + NatToString(response.value.status)))
    else
      match response.value.body
      case NotJson(isZip) => if isZip then Success(Sb2) else Success(Sb)
      case JsonPrimitive => Failure(TypeError(InTypeError))
      case JsonObject(keys) =>
        if "targets" in keys then Success(Sb3)
        else if "objName" in keys then Success(Sb2)
        else Failure(PlainError("Unknown project type"))
  }

  /**
   * A JSON manifest is sniffed as Scratch 2 exactly when it has `objName` and no `targets`,
   * and is rejected as of unknown type exactly when it has neither.
   */
  lemma SniffJsonObject(id: string, keys: set<string>)
    ensures SniffProjectType(id, Some(Response(200, JsonObject(keys)))) == Success(Sb2) <==>
              "objName" in keys && "targets" !in keys
    ensures SniffProjectType(id, Some(Response(200, JsonObject(keys)))) == Failure(PlainError("Unknown project type")) <==>
              "objName" !in keys && "targets" !in keys
  {
  }

  /**
   * Every tag the packer sniffs names a format, so `loadProject` never sees an inherited
   * name from it: the check as written and as intended select the same loader.
   */
  lemma SniffedTypeSelectsItsLoader(id: string, response: Option<Response<ProbeBody>>)
    requires SniffProjectType(id, response).Success?
    ensures SelectLoader(TypeName(SniffProjectType(id, response).value)) == SniffProjectType(id, response)
    ensures LookupAsWritten(TypeName(SniffProjectType(id, response).value)) == OwnLoader(SniffProjectType(id, response).value)
  {
    var t := SniffProjectType(id, response).value;
    assert TypeName(t) !in InheritedNames;
  }

  /** What `_resultToBlob` hands on: the archive of a zip result, or the bytes of a buffer. */
  datatype Blob = ArchiveBlob(files: seq<FileEntry>) | BufferBlob(bytes: Bytes)

  /**
   * `_resultToBlob`: a zip result becomes an archive of exactly its files, a buffer result a
   * blob of exactly its bytes. Building the archive itself belongs to the zip library.
   */
  function ResultToBlob(result: LoadResult): (b: Blob)
    ensures b.ArchiveBlob? <==> result.Zip?
    ensures b.ArchiveBlob? ==> b.files == result.files
    ensures b.BufferBlob? ==> b.bytes == result.buffer
  {
    match result
    case Zip(_, _, files) => ArchiveBlob(files)
    case Buffer(_, _, buffer) => BufferBlob(buffer)
  }

  /**
   * `_resultToBlob` after `loadScratch1Project`: the blob is the fetched body itself, which
   * carries the Scratch 1 signature.
   */
  lemma Sb1Blob(id: string, body: Option<Bytes>, r: Result<LoadResult, Error>)
    requires Sb1Loaded(id, body, r) && r.Success?
    ensures body.Some? && ResultToBlob(r.value) == BufferBlob(body.value)
    ensures HasMagic(ResultToBlob(r.value).bytes, SbMagic)
  {
  }

  /**
   * `_resultToBlob` after `loadScratch2BinaryProject`: the blob is the file reader's bytes,
   * which carry the zip signature.
   */
  lemma Sb2BinaryBlob(id: string, bytes: Bytes, r: Result<LoadResult, Error>)
    requires Sb2BinaryLoaded(id, bytes, r) && r.Success?
    ensures ResultToBlob(r.value) == BufferBlob(bytes)
    ensures HasMagic(ResultToBlob(r.value).bytes, ZipMagic)
  {
  }

  /**
   * `_resultToBlob` after a Scratch 2 JSON load: the archive holds one file per asset and the
   * rewritten manifest, the manifest first and alone under `project.json`, all paths distinct.
   */
  lemma Sb2ArchiveBlob(id: string, assets: seq<Scratch2.Asset>, fetchAsset: string -> Option<Bytes>,
                       manifest: Sb2Stage, r: Result<LoadResult, Error>)
    requires Scratch2.ArchiveSettled(id, assets, fetchAsset, manifest, r) && r.Success?
    ensures ResultToBlob(r.value).ArchiveBlob?
    ensures |ResultToBlob(r.value).files| == |assets| + 1
    ensures ResultToBlob(r.value).files[0] == FileEntry(ProjectJsonPath, Sb2Json(manifest))
    ensures forall i :: 0 < i < |ResultToBlob(r.value).files| ==> ResultToBlob(r.value).files[i].path != ProjectJsonPath
    ensures DistinctPaths(ResultToBlob(r.value).files)
  {
    Scratch2.Sb2ArchiveLayout(assets, fetchAsset, FileEntry(ProjectJsonPath, Sb2Json(manifest)), r.value.files);
  }

  /**
   * `_resultToBlob` after a Scratch 3 load whose asset paths are not `project.json`: the
   * archive starts with the manifest, and no other file is `project.json`.
   */
  lemma Sb3ArchiveBlob(id: string, p: Sb3Project, fetchAsset: string -> Option<Bytes>, r: Result<LoadResult, Error>)
    requires Scratch3.Sb3Loaded(id, Some(Scratch3.JsonValue(p)), fetchAsset, r) && r.Success?
    requires p.targets.Present?
    requires forall a :: a in Scratch3.ProjectAssets(p.targets.value) ==> Scratch3.AssetPath(a) != ProjectJsonPath
    ensures ResultToBlob(r.value).ArchiveBlob?
    ensures |ResultToBlob(r.value).files| > 0
    ensures ResultToBlob(r.value).files[0] == FileEntry(ProjectJsonPath, Sb3Json(p))
    ensures forall i :: 0 < i < |ResultToBlob(r.value).files| ==> ResultToBlob(r.value).files[i].path != ProjectJsonPath
  {
    Scratch3.Sb3ProjectJsonFirst(id, p, fetchAsset, r);
  }
}
