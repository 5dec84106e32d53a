/**
 * Binary signature checks: `checkMagic` and the two loaders that decide a format from it,
 * the Scratch 1 loader (always a buffer) and the binary branch of the Scratch 2 loader.
 */
module Magic {
  import opened Wrappers
  import opened Manifest

  const SbMagic: string := "ScratchV01"
  const ZipMagic: string := "PK"

  /** `buffer` starts with the character codes of `magic`. */
  predicate HasMagic(buffer: Bytes, magic: string) {
    |buffer| >= |magic| && forall i :: 0 <= i < |magic| ==> buffer[i] as int == magic[i] as int
  }

  /**
   * `checkMagic`: compares the first `|magic|` bytes with the codes of `magic`, one index at
   * a time; an index past the end of a short buffer reads `undefined` and fails the check.
   */
  method CheckMagic(buffer: Bytes, magic: string) returns (ok: bool)
    ensures ok <==> HasMagic(buffer, magic)
  {
    var header := if |buffer| < |magic| then buffer else buffer[..|magic|];
    for i := 0 to |magic|
      invariant |header| == if |buffer| < |magic| then |buffer| else |magic|
      invariant forall q :: 0 <= q < |header| ==> header[q] == buffer[q]
      invariant i <= |header|
      invariant forall q :: 0 <= q < i ==> header[q] as int == magic[q] as int
    {
      if i >= |header| || header[i] as int != magic[i] as int {
        return false;
      }
    }
    return true;
  }

  /** The URL of the projects API for a Scratch 1 or Scratch 2 project. */
  function ProjectApiUrl(id: string): string {
    "https://projects.scratch.mit.edu/internalapi/project/" + id + "/get/"
  }

  /**
   * How `loadScratch1Project` settles: `body` is the fetched body (`None` when the request
   * rejected). The status is not looked at; only the signature decides.
   */
  predicate Sb1Loaded(id: string, body: Option<Bytes>, r: Result<LoadResult, Error>) {
    if body.None? then r == Failure(NetworkError(ProjectApiUrl(id)))
    else if HasMagic(body.value, SbMagic) then r == Success(Buffer(id, "sb", body.value))
    else r == Failure(PlainError("Project is not a valid .sb file (failed magic check)"))
  }

  /** `loadScratch1Project`. */
  method LoadScratch1Project(id: string, body: Option<Bytes>) returns (r: Result<LoadResult, Error>)
    ensures Sb1Loaded(id, body, r)
    ensures r.Success? <==> body.Some? && HasMagic(body.value, SbMagic)
  {
    if body.None? {
      return Failure(NetworkError(ProjectApiUrl(id)));
    }
    var ok := CheckMagic(body.value, SbMagic);
    if !ok {
      return Failure(PlainError("Project is not a valid .sb file (failed magic check)"));
    }
    return Success(Buffer(id, "sb", body.value));
  }

  /**
   * How `loadScratch2BinaryProject` settles: only a zip signature is accepted; a Scratch 1
   * signature is rejected with a format error that names `sb` (the later generic rejection
   * is ignored, because a promise settles once).
   */
  predicate Sb2BinaryLoaded(id: string, bytes: Bytes, r: Result<LoadResult, Error>) {
    if HasMagic(bytes, ZipMagic) then r == Success(Buffer(id, "sb2", bytes))
    else if HasMagic(bytes, SbMagic) then r == Failure(FormatError("File is not a valid .sb2 (failed magic check)", "sb"))
    else r == Failure(PlainError("File is not a valid .sb2 (failed magic check)"))
  }

  /** `loadScratch2BinaryProject`, on the bytes the file reader produced. */
  method LoadScratch2BinaryProject(id: string, bytes: Bytes) returns (r: Result<LoadResult, Error>)
    ensures Sb2BinaryLoaded(id, bytes, r)
    ensures r.Success? <==> HasMagic(bytes, ZipMagic)
  {
    var zip := CheckMagic(bytes, ZipMagic);
    if !zip {
      var sb := CheckMagic(bytes, SbMagic);
      if sb {
        return Failure(FormatError("File is not a valid .sb2 (failed magic check)", "sb"));
      }
      return Failure(PlainError("File is not a valid .sb2 (failed magic check)"));
    }
    return Success(Buffer(id, "sb2", bytes));
  }
}
