# Scratch project downloader: the loading pipeline in Dafny

This project models the download pipeline of the `SBDL` module of `lib.js` and two decision
helpers of its `Packer`, and proves what that code promises. The pipeline downloads a Scratch
project and turns it into either one buffer (a Scratch 1 file or a binary Scratch 2 file) or a
list of files ready to be zipped (a Scratch 2 JSON project or a Scratch 3 project):

- `fetchQueue`: admits at most 30 requests to the network at a time and keeps the rest in a FIFO
  list (`Fetching.FetchQueue`, a class whose fields the methods update).
- `checkMagic`: compares a file's first bytes with a signature. The Scratch 1 loader and the
  binary branch of the Scratch 2 loader decide on its result (`Magic`).
- `sortFiles`: an in-place array sort. `project.json` comes first, then files by the number
  before the first `.`, then by string order. It is proved to produce a sorted permutation, and
  the sorted order of a list of distinct paths is proved to be unique, so the archive does not
  depend on the order in which fetches complete (`FileSort`).
- `loadScratch2JSONProject`, in `Scratch2`:
  - `md5Of` picks each object's content key.
  - `processAssets` groups the objects by that key, in first-occurrence order.
  - `claimAccumulatedID` draws from two counters, one for images and one for sounds.
  - `addAsset` claims an ID, writes it into the legacy ID fields of every object that refers
    to the asset, and fetches the asset as `{id}.{extension}`.
  - The driver collects the costumes and sounds of the stage and of its sprites, appends
    `project.json` and sorts.
  - The manifest is a graph of `Sb2Object`s: its hash fields are constants, its three ID fields
    are mutable. `project.json` is a value snapshot of the manifest taken after the rewrite.
- `loadScratch3Project`: the format guards, `dedupeAssets` by `md5ext` (first wins), the
  `addFile` path rule, and the sorted archive with `project.json` (`Scratch3`). `Dedup` holds
  the first-occurrence deduplication that both loaders are specified by.
- `loadProject`: the tag check that picks a loader. `_getProjectTypeById`: guesses the tag from
  the projects API. `_resultToBlob`: dispatches on the result kind (`Loader`).

Everything the code leaves to the outside world is an input of the model:
- The network is a settled response per request: `None` when the request rejected, otherwise a
  status and a decoded body.
- The asset host is a function `fetchAsset` from URL to optional bytes.
- JSON parsing is reflected in which body constructor is given.

An asynchronous chain is modelled as the sequence of steps it takes once every promise has
settled. Where the outcome depends on timing, the contract says what holds for every timing:
- which fetch failure `Promise.all` reports is stated existentially;
- the order of `result.files` before sorting is stated as a permutation.

The legacy IDs follow first-occurrence order. The code claims each ID synchronously in
`addAsset`, before the fetch is issued (lib.js:250, with every `addAsset` call made by
`assets.map` at lib.js:307). The model follows the code: the asset at index `j` of
`processAssets`' output gets as its ID the number of earlier assets of the same family.

## Model

| member | source | states |
|---|---|---|
| Magic.CheckMagic | lib.js:67-75 | Returns true exactly when the buffer is at least as long as the signature and its first bytes equal the signature's character codes; a shorter buffer fails. |
| Magic.LoadScratch1Project | lib.js:105-126 | A rejected request rejects. A body with the Scratch 1 signature becomes an `sb` buffer of exactly that body. Any other body rejects with the magic-check error. Success happens exactly when the body has the signature. |
| Magic.LoadScratch2BinaryProject | lib.js:174-197 | Accepts exactly the bytes with a `PK` header, as an `sb2` buffer. A `ScratchV01` header rejects with a format error naming `sb`. Anything else rejects with the plain error. |
| FileSort.SortFiles | lib.js:78-102 | The array ends sorted by the comparator and is a permutation of what it held. |
| FileSort.InOrderTransitive | lib.js:79-101 | The comparator's non-positive relation is transitive, so the sorted order is well defined. |
| FileSort.InOrderBothWays | lib.js:79-101 | Two entries that may each precede the other have the same path. |
| FileSort.SortedLayout | lib.js:84-97 | In a sorted list that contains `project.json`, that file is first and the other files ascend by numeric prefix. |
| FileSort.NumericPrefixOfIdPath | lib.js:90-91 | A path `{n}.{ext}` sorts by the number `n`. |
| FileSort.SortIsDeterministic | lib.js:78-102 | Any two sorted permutations of the same list of distinct paths are equal, whatever order the files arrived in. |
| FileSort.SortedUnique | lib.js:78-102 | A sorted list of distinct paths is the only sorted arrangement of its entries. |
| FileSort.ProjectJsonFirst | lib.js:309-311 | Sorting the asset files plus a `project.json` appended last gives exactly one `project.json`, at index 0. This holds when the asset paths are distinct and none is `project.json`. |
| FileSort.SortedArchive | lib.js:311-312 | The zip result holds exactly the given files, as a sorted permutation, with the given title and extension. |
| Strings.LocaleLessTotal | lib.js:100 | The tie-breaking string order is total: of two different strings, one comes first. |
| Strings.LocaleLessTransitive | lib.js:100 | The tie-breaking string order is transitive. |
| Strings.LocaleLessAsymmetric | lib.js:100 | The tie-breaking string order is asymmetric. |
| Strings.DecimalRoundTrip | lib.js:90-91 | Parsing the decimal text of an ID (`accumulator + '.'`) gives the ID back. |
| Strings.NatToStringInjective | lib.js:251 | Different IDs are written as different texts. |
| Strings.BeforeFirstDotOfJoin | lib.js:90 | `split('.').shift()` of `{head}.{tail}` is `head` when `head` has no `.`. |
| Strings.AfterLastDot | lib.js:290 | `split('.').pop()` returns text with no `.` in it. |
| Dedup.Distinct | lib.js:280-300 | Lists each element of its input once and lists nothing else. |
| Dedup.DistinctFirstOccurrenceOrder | lib.js:280-300 | The distinct elements come in the order of their first occurrence. |
| Dedup.DistinctSnoc | lib.js:285-297 | One more input adds its key at the end exactly when the key is new. |
| Fetching.FetchQueue.constructor | lib.js:21-24 | Starts with nothing queued, nothing in flight, nothing settled, and a cap of 30. |
| Fetching.FetchQueue.Add | lib.js:25-32 | Appends the request to the tail of the queue. Below the cap it is admitted at once and the in-flight count grows by one; at the cap it waits and nothing else changes. The cap is never exceeded (`Valid`). |
| Fetching.FetchQueue.ProcessNext | lib.js:33-38 | Admits the head of the queue, if any, and counts it as in flight. |
| Fetching.FetchQueue.Settle | lib.js:39-49 | Settling a request in flight records its outcome exactly once, whether success or failure. With requests waiting, the queue head is admitted and the count is unchanged; otherwise the count drops by one. |
| Fetching.FetchQueue.RequestsDistinct | lib.js:27-37 | The requests `add` received are pairwise distinct. No request is both waiting and admitted, and none waits twice. So the FIFO bookkeeping (admitted requests followed by waiting ones, in `add` order) lists each call once. |
| Fetching.FetchQueue.Drain | lib.js:21-51 | Whatever order the transport settles requests in, every request is eventually admitted and settled, and the queue empties. |
| Promises.PromiseAll | lib.js:307 | Resolves exactly when every promise resolved, with all values in order. Otherwise it rejects with the error of one that rejected. |
| Scratch2.Md5Of | lib.js:230-233 | The key is the first truthy of `md5`, `baseLayerMD5` and `penLayerMD5`, else the object's string form. It is never empty. |
| Scratch2.KeptChildren | lib.js:302 | Keeps only children that are neither lists nor watchers, keeps every such child, and never yields more than it was given. |
| Scratch2.KeptChildrenAppend | lib.js:302 | The filter works child by child: filtering a concatenation concatenates the filtered parts, and one child is kept exactly when it is a sprite, so the sprites keep their order and multiplicity. |
| Scratch2.AssetInputs | lib.js:302-306 | A `children` that is not an array is a TypeError and nothing else fails; otherwise the stage itself is the last input. |
| Scratch2.AssetInputsOrder | lib.js:303-306 | The inputs are the costumes of the targets, then their sounds, then the stage: every input before the costume count is some target's costume, every later one but the last some target's sound. |
| Scratch2.AssetInputsMembers | lib.js:302-306 | An object is an input exactly when it is the stage, or a costume or sound of the stage or of a sprite. |
| Scratch2.ProcessAssets | lib.js:280-300 | The key-to-index loop builds exactly the grouping `GroupByMd5`. |
| Scratch2.GroupByMd5Keys | lib.js:285-295 | There is one asset per key: no two assets share a key, and every key is an input's. |
| Scratch2.GroupByMd5Covers | lib.js:286-296 | Every input's key has an asset. |
| Scratch2.GroupByMd5FirstOccurrence | lib.js:285-297 | Assets come in the order in which their keys first occur among the inputs. |
| Scratch2.GroupByMd5References | lib.js:288-296 | Each asset's references are exactly the inputs with its key, so none is empty. Its extension is the text after the key's last `.`. |
| Scratch2.ReferencedOnce | lib.js:296 | An object is a reference of one asset only. |
| Scratch2.FamilyOf | lib.js:202-212 | svg/png/jpg/jpeg/bmp draw from the image counter, wav/mp3 from the sound counter, and nothing draws from both. |
| Scratch2.ClaimAccumulatedId | lib.js:235-243 | Returns the current value of its family's counter and increments only that counter. An unknown extension fails with `unknown extension: …` and leaves both counters unchanged. |
| Scratch2.IdsIncreasing | lib.js:235-243 | Within a family, IDs strictly increase in asset order and stay below the family's count, so there are no repeats. |
| Scratch2.IdsOnto | lib.js:235-243 | Every number below a family's count is the ID of one of its assets, so there are no gaps. |
| Scratch2.AssetPathInjective | lib.js:251 | The path `{id}.{extension}` determines both the ID and the extension. |
| Scratch2.AssetPathNotProjectJson | lib.js:251 | No asset path is `project.json`. |
| Scratch2.Rewrite | lib.js:255-265 | Each ID field that is present is set to the ID. An absent field stays absent. |
| Scratch2.RewriteReferences | lib.js:255-265 | Every reference's ID fields are rewritten to the ID, and no other object's fields change. |
| Scratch2.FetchedAsset | lib.js:267-275 | The asset promise resolves with the fetched body under `{id}.{extension}`, or rejects when the fetch fails. |
| Scratch2.AddAsset | lib.js:245-276 | Claims an ID. An unknown extension throws before anything is rewritten or fetched. Otherwise the claimed ID is written into exactly the asset's references and the asset is fetched under its path. |
| Scratch2.AddNext | lib.js:307 | The `n`-th call of `addAsset` in `assets.map` claims the ID the earlier assets of its family leave and rewrites the ID fields as `AddedIds` says. |
| Scratch2.NextIds | lib.js:250 | The counter value the `n`-th asset claims is `IdFor`. Adding it extends the rewritten ID fields by that asset's references. |
| Scratch2.AddAssets | lib.js:307 | With all extensions known, every promise is the fetch of its asset under the ID claimed in order. Otherwise it fails with the first unknown extension. The ID fields of exactly the assets added are rewritten. |
| Scratch2.AddedIdsAt | lib.js:255-265 | A reference of an added asset carries that asset's ID. A reference of an asset not yet added keeps its fields. |
| Scratch2.AddedIdsUnreferenced | lib.js:255-265 | An object that no asset references keeps its ID fields. |
| Scratch2.RewrittenIdsReferenced | lib.js:250-265 | After the load, a reference of asset `i` carries asset `i`'s ID when `i` precedes the first unknown extension, and keeps its fields otherwise. |
| Scratch2.RewrittenIdsUnreferenced | lib.js:302-306 | An object that is not an input of `processAssets`, such as a list or a watcher, keeps its ID fields. |
| Scratch2.GatheredAssets | lib.js:307 | Gathering the promises succeeds exactly when every asset fetch succeeds, and then yields the asset files in asset order. Otherwise it yields the error of a failed fetch. |
| Scratch2.ArchivedPathsDistinct | lib.js:251 | The archived asset paths are pairwise distinct. |
| Scratch2.Sb2ArchiveLayout | lib.js:307-313 | A loaded archive has one file per asset plus `project.json`. `project.json` comes first and only once, all paths are distinct, and no other order of the same files is sorted. |
| Scratch2.SettleAssets | lib.js:307-313 | An unknown extension rejects, else a failed fetch rejects with its error, else the result is an `sb2` zip holding a sorted permutation of the asset files and the rewritten manifest. |
| Scratch2.RewriteStage | lib.js:302-307 | Returns exactly `processAssets`' grouping of the manifest, and the manifest's ID fields end as `RewrittenIds` says. |
| Scratch2.ArchiveStage | lib.js:302-313 | For a manifest whose `children` is an array: the IDs are rewritten, then the result settles as `SettleAssets` says, with `project.json` serialized after the rewrite. |
| Scratch2.LoadScratch2JsonProject | lib.js:199-314 | A non-array `children` is a TypeError with nothing rewritten. Otherwise the IDs are rewritten and the archive settles as stated above. |
| Scratch2.LoadScratch2Project | lib.js:129-171 | A rejected request rejects. A status other than 200 rejects with `Returned status code: {status}`. A body that is not JSON goes to the binary loader, and a JSON body to the JSON loader. |
| Scratch3.KeepFirst | lib.js:340-354 | Keeps no more assets than it is given, and only assets from its input. |
| Scratch3.KeepFirstSpec | lib.js:340-354 | Keeps one asset per `md5ext`, in first-occurrence order of the keys, and the asset kept for a key is the first one with that key. |
| Scratch3.DedupeAssets | lib.js:340-354 | The loop with its `Set` of known keys returns exactly `KeepFirst`. |
| Scratch3.KeepFirstInOrder | lib.js:344-351 | The kept assets keep their relative input order. |
| Scratch3.KeepFirstOneUnkeyed | lib.js:345 | Of all the assets without an `md5ext`, at most one survives, however their `assetId`s differ. |
| Scratch3.KeptPathsDistinct | lib.js:330 | Two kept assets that both carry an `md5ext` are stored under different paths. |
| Scratch3.FetchedFile | lib.js:328-336 | The file promise resolves with the fetched body under `md5ext`, falling back to `assetId.dataFormat`, or rejects when the fetch fails. |
| Scratch3.GatheredPathsDistinct | lib.js:328-376 | When every kept asset has an `md5ext`, `Promise.all` gathers one file per kept asset and no two files share a path, so no asset is archived twice. |
| Scratch3.LoadScratch3Project | lib.js:317-383 | A rejected request or a non-JSON body rejects, and `null` is a TypeError. A string `objName` rejects with a format error naming `sb2`, checked before `targets`. A non-array `targets` rejects. Otherwise a failed asset fetch rejects, and a full fetch gives an `sb3` zip holding a sorted permutation of `project.json` plus the deduplicated asset files. |
| Scratch3.Sb3ProjectJsonFirst | lib.js:369-379 | In a loaded `sb3` archive whose asset paths are not `project.json`, the manifest is first and appears once. |
| Loader.SelectLoader | lib.js:408-419 | A tag selects the loader stored under it; every other tag is rejected with `Unknown type: {tag}`. This is the corrected check (see Findings). |
| Loader.SelectLoaderRoundTrip | lib.js:409-413 | Each format's tag selects that format, and no other tag does. |
| Loader.LookupAsWritten | lib.js:414-418 | The `in` check as written rejects exactly the tags that are neither a format nor an `Object.prototype` property name. |
| Loader.InheritedNameLetThrough | lib.js:414-418 | The tag `toString` passes the check as written, though no loader is stored under it. |
| Loader.LookupAgreesOutsideInheritedNames | lib.js:414-418 | Except for the inherited names, the check as written and the corrected one agree. |
| Loader.LoadProject | lib.js:408-419 | An unknown tag rejects before any request. `sb`, `sb2` and `sb3` settle exactly as their loaders do. |
| Loader.SniffProjectType | lib.js:674-704 | A 404 and other failing statuses give distinct errors. A JSON object is `sb3` exactly when it has `targets`, whatever else it has. A non-JSON body is `sb` exactly when it is not a zip. |
| Loader.SniffJsonObject | lib.js:701-703 | A JSON object is `sb2` exactly when it has `objName` and no `targets`, and of unknown type exactly when it has neither. |
| Loader.SniffedTypeSelectsItsLoader | lib.js:709-712 | Every tag the packer sniffs selects its own loader, both as written and as corrected. |
| Loader.ResultToBlob | lib.js:657-669 | A result becomes an archive exactly when it is a zip result, with exactly its files; a buffer result becomes a blob of exactly its bytes. |
| Loader.Sb1Blob | lib.js:117-125 | The blob of a successful Scratch 1 load is the fetched body, and it carries the `ScratchV01` signature. |
| Loader.Sb2BinaryBlob | lib.js:176-195 | The blob of a successful binary Scratch 2 load is the file reader's bytes, and they carry the zip signature. |
| Loader.Sb2ArchiveBlob | lib.js:306-313 | The archive of a successful Scratch 2 JSON load has one file per asset plus `project.json`, the rewritten manifest first and alone under that path, and all paths distinct. |
| Loader.Sb3ArchiveBlob | lib.js:369-381 | The archive of a successful Scratch 3 load starts with the manifest and holds no other `project.json`, when no asset path is `project.json`. |

## Left out

- The network is not modelled (`_fetch` through node-fetch, HTTP bodies). Each request is an input: a settled response, or the `fetchAsset` function. A rejected request is reported as `NetworkError(url)`, not with the transport's own error.
- `FileReader` (lib.js:151-156, lib.js:175-196) is a browser API. Its read errors are left out, and the bytes it produces are the input.
- JSZip is a foreign library. `createArchive` in both modules (lib.js:389-405, lib.js:484-502) is left out: `Loader.ResultToBlob` hands on the file list that would be zipped. The `JSZip.loadAsync` probe (lib.js:692) is the `isZip` input of `Loader.SniffProjectType`.
- `JSON.parse` and `JSON.stringify` are left out. Which body constructor is given stands for the parse outcome. `project.json` holds a value snapshot of the manifest, taken when `JSON.stringify` runs.
- The progress hooks (lib.js:58-65) are empty callbacks and are not modelled.
- The Packer's page template, `FileLoader`, `Zipper`, `Progress` and `readAsURL` (lib.js:431-951, apart from the two helpers modelled) are presentation and packaging, not part of this model. Neither is the command-line front end (index.js) nor the popup (popup.js).
- Timing is not modelled. `Fetching.FetchQueue` is exercised through explicit `Settle` calls in any order. The loaders take already-settled responses and are not wired to the queue.
- Promises.PromiseAll: the source rejects with the first rejection in time. The definition takes the first in list order, so the loaders' contracts state only that the error is that of some failed fetch.
- FileSort.NumericPrefix: the unary `+` also accepts forms such as `1e3`, `0x10` or surrounding spaces. The model reads only plain decimal digits, and anything else counts as 0. The model also reads the exact decimal value, where `+` gives a double: above 2^53 distinct prefixes can round to the same number (`09007199254740993.png` and `9007199254740992.png`), and the source then falls back to string order where the model orders by the exact values; a prefix of more than about 309 digits reads as Infinity in the source.
- Strings.LocaleLess: `localeCompare` is locale-dependent. The model uses code-point order (not UTF-16 code-unit order, which differs above U+FFFF), and the sort proofs rely only on its being a strict total order.
- FileSort.SortFiles: `Array.prototype.sort` uses an implementation-defined algorithm. The model sorts by insertion. For distinct paths every sorting algorithm gives the same result (`FileSort.SortIsDeterministic`).
- Scratch2.AssetInputs: the TypeError text is one representative message. JavaScript's wording depends on what `children` holds. `Scratch3.NullTypeError` is likewise fixed.
- Magic.ProjectApiUrl, Scratch2.AssetUrl, Scratch3.ProjectUrl, Scratch3.AssetUrl: the source builds URLs with `String.prototype.replace('$id'|'$path', x)` (lib.js:117, lib.js:142, lib.js:267, lib.js:331, lib.js:359), which interprets `$$`, `$&`, `` $` `` and `$'` inside `x`. The model concatenates plainly, so it differs for IDs and paths containing `$`.
- Scratch2.Md5Of: the properties are modelled as optional strings. A non-string hash value is outside the model, and the string form of any object is `[object Object]`.
- Loader.LoadProject: follows the corrected tag check. For the twelve `Object.prototype` names, the source calls a method of `Object.prototype` with the project ID, and the model instead rejects with `Unknown type` (see Findings). What such a call returns is not modelled beyond `Loader.LookupAsWritten`'s `Inherited` case.
- Loader.ResultToBlob: the `Unknown result type` branch (lib.js:666-667) cannot be reached, because a load result is either a buffer or a zip.
- Loader.SniffProjectType: a body that is JSON but not an object (`JsonPrimitive`) is reported with one representative TypeError text.

## Findings

| source | as written | input that shows it | evidently intended | confidence | as-written member | corrected member |
|---|---|---|---|---|---|---|
| lib.js:414-418 | `type in loaders` also finds the properties every object inherits from `Object.prototype`. A tag such as `toString`, `constructor` or `__proto__` passes the check, and `loaders[type](id)` then calls something that is not a loader, or throws synchronously because the value is not a function. | `loadProject(id, "toString")` | Reject every tag that is not `sb`, `sb2` or `sb3` with `Unknown type: {tag}`, as for any other unknown tag (an own-property check). | not executed | Loader.InheritedNameLetThrough | Loader.SelectLoaderRoundTrip |

`Loader.LookupAsWritten` models the check as written. `Loader.SelectLoader` is the corrected check, and `Loader.LoadProject` uses it. Tags produced by `_getProjectTypeById` are never inherited names (`Loader.SniffedTypeSelectsItsLoader`), so the packer itself cannot trigger the discrepancy. A direct caller of `loadProject` can.
