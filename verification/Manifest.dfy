/**
 * The values the download pipeline passes around: bytes, the errors a load rejects with,
 * value snapshots of the two JSON manifest generations, and the normalized load result
 * (a single buffer, or a flat list of files for an archive). `FormatError` builds the
 * `ProjectFormatError` of lib.js:11-16, whose message ends with the probable format.
 */
module Manifest {
  import opened Wrappers

  newtype byte = x: int | 0 <= x < 256

  type Bytes = seq<byte>

  /** The errors a load rejects with. */
  datatype Error =
    | ProjectFormatError(message: string, probableType: string) // the project is probably of another format
    | PlainError(message: string)                                // `new Error(message)`
    | TypeError(message: string)                                 // a property of undefined or null was used
    | NetworkError(url: string)                                  // the transport rejected a request
    | SyntaxError                                                // a body was not JSON

  /** `new ProjectFormatError(message, probableType)`: the message carries the hint. */
  function FormatError(message: string, probableType: string): (e: Error)
    ensures e.ProjectFormatError? && e.probableType == probableType
    ensures e.message == message + " (probably a ." + probableType + ")"
  {
    ProjectFormatError(message + " (probably a ." + probableType + ")", probableType)
  }

  /** JavaScript truthiness of an optional string property: present and not "". */
  predicate Truthy(s: Option<string>) {
    s.Some? && s.value != ""
  }

  /** String concatenation of an optional property: an absent one reads "undefined". */
  function JsString(s: Option<string>): string {
    if s.Some? then s.value else "undefined"
  }

  /** The ID and hash fields of one Scratch 2 object, as serialized into project.json. */
  datatype Sb2Record = Sb2Record(
    md5: Option<string>, baseLayerMD5: Option<string>, penLayerMD5: Option<string>,
    baseLayerID: Option<int>, soundID: Option<int>, penLayerID: Option<int>)

  /** A Scratch 2 child entry (a sprite or a watcher) with its costumes and sounds. */
  datatype Sb2Sprite = Sb2Sprite(
    record: Sb2Record, listName: Option<string>, target: Option<string>,
    costumes: seq<Sb2Record>, sounds: seq<Sb2Record>)

  /** A Scratch 2 manifest: the stage, its costumes and sounds, and its children. */
  datatype Sb2Stage = Sb2Stage(
    record: Sb2Record, costumes: seq<Sb2Record>, sounds: seq<Sb2Record>,
    children: Option<seq<Sb2Sprite>>)

  /** A JSON property that may be absent, present with the expected type, or present with another. */
  datatype Prop<+T> = Absent | Present(value: T) | OtherType

  /** A Scratch 3 costume or sound entry. */
  datatype Sb3Asset = Sb3Asset(md5ext: Option<string>, assetId: Option<string>, dataFormat: Option<string>)

  /** A Scratch 3 target; an absent costume or sound list reads as empty (`t.costumes || []`). */
  datatype Sb3Target = Sb3Target(costumes: seq<Sb3Asset>, sounds: seq<Sb3Asset>)

  /** A Scratch 3 manifest, reduced to the two properties the loader inspects. */
  datatype Sb3Project = Sb3Project(objName: Prop<string>, targets: Prop<seq<Sb3Target>>)

  /** The content of one output file: fetched bytes, or a manifest to be serialized. */
  datatype FileData = Binary(bytes: Bytes) | Sb2Json(stage: Sb2Stage) | Sb3Json(project: Sb3Project)

  datatype FileEntry = FileEntry(path: string, data: FileData)

  /** A loader's result: `type: 'buffer'` or `type: 'zip'`. */
  datatype LoadResult =
    | Buffer(title: string, extension: string, buffer: Bytes)
    | Zip(title: string, extension: string, files: seq<FileEntry>)

  const ProjectJsonPath: string := "project.json"

  /** An HTTP response as a loader sees it: the status code and the body, already decoded. */
  datatype Response<+B> = Response(status: nat, body: B)
}
