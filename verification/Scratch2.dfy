/**
 * `loadScratch2JSONProject` and its helpers. The parsed manifest is a tree of objects whose
 * hash, list and watcher properties are read-only and whose three legacy ID properties
 * (`baseLayerID`, `soundID`, `penLayerID`) are rewritten in place while assets are added.
 */
module Scratch2 {
  import opened Wrappers
  import opened Strings
  import opened Manifest
  import opened Dedup
  import opened FileSort
  import opened Magic
  import opened Promises

  /**
   * One object of a parsed Scratch 2 manifest: the stage, a child (sprite, list or watcher),
   * a costume or a sound. An absent `costumes` or `sounds` property is the empty list
   * (`c.costumes || []`); `children` is `None` when the property is not an array.
   */
  class Sb2Object {
    const md5: Option<string>
    const baseLayerMD5: Option<string>
    const penLayerMD5: Option<string>
    const listName: Option<string>
    const target: Option<string>
    const costumes: seq<Sb2Object>
    const sounds: seq<Sb2Object>
    const children: Option<seq<Sb2Object>>
    var baseLayerID: Option<int>
    var soundID: Option<int>
    var penLayerID: Option<int>
  }

  /** The three ID properties of an object, `None` where the property is absent. */
  datatype IdFields = IdFields(baseLayerID: Option<int>, soundID: Option<int>, penLayerID: Option<int>)

  function Ids(o: Sb2Object): IdFields
    reads o
  {
    IdFields(o.baseLayerID, o.soundID, o.penLayerID)
  }

  /** The fallback of `md5Of`: the string form of a plain object. */
  const ObjectString: string := "[object Object]"

  /**
   * `md5Of`: the first truthy of `md5`, `baseLayerMD5`, `penLayerMD5`, else the object's
   * string form. The key is never empty, so every object has one.
   */
  function Md5Of(thing: Sb2Object): (key: string)
    ensures key != ""
    ensures Truthy(thing.md5) ==> key == thing.md5.value
    ensures !Truthy(thing.md5) ==> key == Md5OfLayers(thing)
  {
    if Truthy(thing.md5) then thing.md5.value else Md5OfLayers(thing)
  }

  /** The part of `md5Of` after `md5` is found falsy. */
  function Md5OfLayers(thing: Sb2Object): (key: string)
    ensures key != ""
    ensures Truthy(thing.baseLayerMD5) ==> key == thing.baseLayerMD5.value
    ensures !Truthy(thing.baseLayerMD5) && Truthy(thing.penLayerMD5) ==> key == thing.penLayerMD5.value
    ensures !Truthy(thing.baseLayerMD5) && !Truthy(thing.penLayerMD5) ==> key == ObjectString
  {
    if Truthy(thing.baseLayerMD5) then thing.baseLayerMD5.value
    else if Truthy(thing.penLayerMD5) then thing.penLayerMD5.value
    else ObjectString
  }

  /** A child that is neither a list (`listName`) nor a watcher (`target`). */
  predicate IsSprite(c: Sb2Object) {
    !Truthy(c.listName) && !Truthy(c.target)
  }

  /** `children.filter((c) => !c.listName && !c.target)`: the sprites, without lists and watchers. */
  function KeptChildren(cs: seq<Sb2Object>): (kept: seq<Sb2Object>)
    ensures |kept| <= |cs|
    ensures forall q :: 0 <= q < |kept| ==> kept[q] in cs && IsSprite(kept[q])
    ensures forall q :: 0 <= q < |cs| && IsSprite(cs[q]) ==> cs[q] in kept
  {
    if cs == [] then []
    else
      var c := cs[|cs| - 1];
      assert cs == cs[..|cs| - 1] + [c];
      KeptChildren(cs[..|cs| - 1]) + if IsSprite(c) then [c] else []
  }

  /**
   * The filter works child by child: filtering a concatenation concatenates the filtered
   * parts, and a single child is kept exactly when it is a sprite. So the kept children are
   * the sprites in their order, each as often as it occurs.
   */
  lemma {:induction false} KeptChildrenAppend(a: seq<Sb2Object>, b: seq<Sb2Object>)
    ensures KeptChildren(a + b) == KeptChildren(a) + KeptChildren(b)
    ensures |b| == 1 ==> KeptChildren(b) == if IsSprite(b[0]) then b else []
  {
    if b == [] {
      assert a + b == a;
    } else {
      var p := b[..|b| - 1];
      assert (a + b)[..|a + b| - 1] == a + p;
      KeptChildrenAppend(a, p);
      if |b| == 1 {
        assert p == [];
      }
    }
  }

  /** The costumes of every target, target by target. */
  function CostumesOf(ts: seq<Sb2Object>): seq<Sb2Object> {
    if ts == [] then [] else ts[0].costumes + CostumesOf(ts[1..])
  }

  /** The sounds of every target, target by target. */
  function SoundsOf(ts: seq<Sb2Object>): seq<Sb2Object> {
    if ts == [] then [] else ts[0].sounds + SoundsOf(ts[1..])
  }

  lemma {:induction false} CollectedMembers(ts: seq<Sb2Object>, o: Sb2Object)
    ensures o in CostumesOf(ts) <==> exists t :: t in ts && o in t.costumes
    ensures o in SoundsOf(ts) <==> exists t :: t in ts && o in t.sounds
  {
    if ts != [] {
      CollectedMembers(ts[1..], o);
      assert forall t :: t in ts <==> t == ts[0] || t in ts[1..];
    }
  }

  /** The objects of a list of targets, with their costumes and sounds. */
  function ObjectsOf(ts: seq<Sb2Object>): set<Sb2Object> {
    (set o | o in ts) + (set o | o in CostumesOf(ts)) + (set o | o in SoundsOf(ts))
  }

  /** The objects reachable from allocated targets are allocated. */
  lemma {:induction false} ObjectsAllocated(ts: seq<Sb2Object>)
    ensures forall o :: o in ObjectsOf(ts) ==> allocated(o)
  {
    if ts != [] {
      ObjectsAllocated(ts[1..]);
      forall o | o in ObjectsOf(ts)
        ensures allocated(o)
      {
        assert CostumesOf(ts) == ts[0].costumes + CostumesOf(ts[1..]);
        assert SoundsOf(ts) == ts[0].sounds + SoundsOf(ts[1..]);
        if o !in ts[0].costumes && o !in ts[0].sounds && o != ts[0] {
          assert o in ObjectsOf(ts[1..]);
        }
      }
    }
  }

  function AllChildren(stage: Sb2Object): seq<Sb2Object> {
    if stage.children.Some? then stage.children.value else []
  }

  /** Every object of the manifest the loader reads or writes. */
  function ManifestObjects(stage: Sb2Object): set<Sb2Object> {
    ObjectsOf([stage] + AllChildren(stage))
  }

  /** `[projectData].concat(children)`: the stage first, then the kept children. */
  function Targets(stage: Sb2Object): seq<Sb2Object>
    requires stage.children.Some?
  {
    [stage] + KeptChildren(stage.children.value)
  }

  /** The TypeError `projectData.children.filter` raises when `children` is not an array. */
  const ChildrenTypeError: string := "projectData.children.filter is not a function"

  /**
   * The list handed to `processAssets`: all costumes, then all sounds, of the targets, then
   * the stage itself (for its pen layer).
   */
  function AssetInputs(stage: Sb2Object): (r: Result<seq<Sb2Object>, Error>)
    ensures r.Failure? <==> stage.children.None?
    ensures r.Failure? ==> r.error == TypeError(ChildrenTypeError)
    ensures r.Success? ==> |r.value| > 0 && r.value[|r.value| - 1] == stage
  {
    if stage.children.None? then Failure(TypeError(ChildrenTypeError))
    else
      var ts := Targets(stage);
      Success(CostumesOf(ts) + SoundsOf(ts) + [stage])
  }

  /**
   * The inputs are the stage and the costumes and sounds of the stage and of the children
   * that are neither lists nor watchers.
   */
  lemma AssetInputsMembers(stage: Sb2Object, o: Sb2Object)
    requires stage.children.Some?
    ensures o in AssetInputs(stage).value <==>
              o == stage || exists t :: (t == stage || (t in stage.children.value && IsSprite(t)))
                                       && (o in t.costumes || o in t.sounds)
  {
    var ts := Targets(stage);
    CollectedMembers(ts, o);
    assert forall t :: t in ts <==> t == stage || t in KeptChildren(stage.children.value);
    forall t | t in stage.children.value && IsSprite(t)
      ensures t in ts
    {
      var q :| 0 <= q < |stage.children.value| && stage.children.value[q] == t;
    }
  }

  /**
   * The inputs are the costumes of the targets, then their sounds, then the stage: every
   * input before position `n` is a costume of a target, every later one but the last a sound
   * of a target.
   */
  lemma AssetInputsOrder(stage: Sb2Object)
    requires stage.children.Some?
    ensures var inputs, n := AssetInputs(stage).value, |CostumesOf(Targets(stage))|;
              && |inputs| == n + |SoundsOf(Targets(stage))| + 1
              && (forall i :: 0 <= i < n ==> exists t :: t in Targets(stage) && inputs[i] in t.costumes)
              && (forall i :: n <= i < |inputs| - 1 ==> exists t :: t in Targets(stage) && inputs[i] in t.sounds)
  {
    var ts := Targets(stage);
    var inputs := AssetInputs(stage).value;
    var costumes, sounds := CostumesOf(ts), SoundsOf(ts);
    forall i | 0 <= i < |costumes|
      ensures exists t :: t in ts && inputs[i] in t.costumes
    {
      assert inputs[i] == costumes[i];
      CollectedMembers(ts, costumes[i]);
    }
    forall i | |costumes| <= i < |inputs| - 1
      ensures exists t :: t in ts && inputs[i] in t.sounds
    {
      assert inputs[i] == sounds[i - |costumes|];
      CollectedMembers(ts, sounds[i - |costumes|]);
    }
  }

  /** Every object the loader may rewrite belongs to the manifest. */
  lemma InputsInManifest(stage: Sb2Object)
    requires stage.children.Some?
    ensures forall o :: o in AssetInputs(stage).value ==> o in ManifestObjects(stage)
  {
    var all := [stage] + AllChildren(stage);
    forall o | o in AssetInputs(stage).value
      ensures o in ManifestObjects(stage)
    {
      AssetInputsMembers(stage, o);
      CollectedMembers(all, o);
      if o != stage {
        var t :| (t == stage || (t in stage.children.value && IsSprite(t)))
                 && (o in t.costumes || o in t.sounds);
        assert t in all;
      }
    }
  }

  /** One entry of `allAssets`: a content key, its extension and every object that uses it. */
  datatype Asset = Asset(md5: string, extension: string, references: seq<Sb2Object>)

  function Md5Keys(xs: seq<Sb2Object>): (keys: seq<string>)
    ensures |keys| == |xs|
  {
    if xs == [] then [] else Md5Keys(xs[..|xs| - 1]) + [Md5Of(xs[|xs| - 1])]
  }

  lemma Md5KeysSnoc(xs: seq<Sb2Object>, x: Sb2Object)
    ensures Md5Keys(xs + [x]) == Md5Keys(xs) + [Md5Of(x)]
  {
    assert (xs + [x])[..|xs|] == xs;
  }

  lemma {:induction false} Md5KeysAt(xs: seq<Sb2Object>, q: nat)
    requires q < |xs|
    ensures Md5Keys(xs)[q] == Md5Of(xs[q])
  {
    if q < |xs| - 1 {
      Md5KeysAt(xs[..|xs| - 1], q);
    }
  }

  /** The inputs whose key is `k`, in input order. */
  function RefsWithKey(xs: seq<Sb2Object>, k: string): (refs: seq<Sb2Object>)
    ensures |refs| <= |xs|
  {
    if xs == [] then [] else
      var x := xs[|xs| - 1];
      RefsWithKey(xs[..|xs| - 1], k) + if Md5Of(x) == k then [x] else []
  }

  /** RefsWithKey keeps exactly the inputs with key `k`. */
  lemma {:induction false} RefsWithKeyMembers(xs: seq<Sb2Object>, k: string)
    ensures forall q :: 0 <= q < |RefsWithKey(xs, k)| ==>
              RefsWithKey(xs, k)[q] in xs && Md5Of(RefsWithKey(xs, k)[q]) == k
    ensures forall q :: 0 <= q < |xs| && Md5Of(xs[q]) == k ==> xs[q] in RefsWithKey(xs, k)
  {
    if xs != [] {
      var p, x := xs[..|xs| - 1], xs[|xs| - 1];
      assert xs == p + [x];
      RefsWithKeyMembers(p, k);
      forall q | 0 <= q < |xs| && Md5Of(xs[q]) == k
        ensures xs[q] in RefsWithKey(xs, k)
      {
        if q < |p| {
          assert xs[q] == p[q];
        }
      }
    }
  }

  /**
   * The reference definition of `processAssets`: one asset per distinct key, in the order the
   * keys first occur, holding the inputs with that key; its properties are the lemmas below.
   */
  function GroupByMd5(xs: seq<Sb2Object>): (assets: seq<Asset>)
    ensures |assets| == |Distinct(Md5Keys(xs))|
    ensures forall i :: 0 <= i < |assets| ==>
              assets[i].md5 == Distinct(Md5Keys(xs))[i] && assets[i].extension == AfterLastDot(assets[i].md5)
              && assets[i].references == RefsWithKey(xs, assets[i].md5)
  {
    var keys := Distinct(Md5Keys(xs));
    seq(|keys|, i requires 0 <= i < |keys| => Asset(keys[i], AfterLastDot(keys[i]), RefsWithKey(xs, keys[i])))
  }

  /** One asset per distinct key: no two assets share a key, and every key is an input's. */
  lemma GroupByMd5Keys(xs: seq<Sb2Object>, assets: seq<Asset>)
    requires assets == GroupByMd5(xs)
    ensures forall i, j :: 0 <= i < j < |assets| ==> assets[i].md5 != assets[j].md5
    ensures forall i :: 0 <= i < |assets| ==> assets[i].md5 in Md5Keys(xs)
  {
  }

  /** Every input's key has an asset. */
  lemma GroupByMd5Covers(xs: seq<Sb2Object>, assets: seq<Asset>, q: nat)
    requires assets == GroupByMd5(xs) && q < |xs|
    ensures exists i :: 0 <= i < |assets| && assets[i].md5 == Md5Of(xs[q])
  {
    Md5KeysAt(xs, q);
    assert Md5Keys(xs)[q] in Distinct(Md5Keys(xs));
  }

  /** The assets come in the order in which their keys first occur among the inputs. */
  lemma GroupByMd5FirstOccurrence(xs: seq<Sb2Object>, assets: seq<Asset>)
    requires assets == GroupByMd5(xs)
    ensures forall i, j :: 0 <= i < j < |assets| ==>
              FirstIndex(Md5Keys(xs), assets[i].md5) < FirstIndex(Md5Keys(xs), assets[j].md5)
  {
    DistinctFirstOccurrenceOrder(Md5Keys(xs));
  }

  /**
   * Each asset holds exactly the inputs with its key (so none is empty), and its extension is
   * the text after the last '.' of the key.
   */
  lemma GroupByMd5References(xs: seq<Sb2Object>, assets: seq<Asset>)
    requires assets == GroupByMd5(xs)
    ensures forall i, q :: 0 <= i < |assets| && 0 <= q < |assets[i].references| ==>
              assets[i].references[q] in xs && Md5Of(assets[i].references[q]) == assets[i].md5
    ensures forall i, q :: 0 <= i < |assets| && 0 <= q < |xs| && Md5Of(xs[q]) == assets[i].md5 ==>
              xs[q] in assets[i].references
    ensures forall i :: 0 <= i < |assets| ==> assets[i].references != []
    ensures forall i :: 0 <= i < |assets| ==> '.' !in assets[i].extension
  {
    forall i | 0 <= i < |assets| {
      RefsWithKeyMembers(xs, assets[i].md5);
    }
    forall i | 0 <= i < |assets|
      ensures assets[i].references != []
    {
      GroupByMd5Keys(xs, assets);
      RefsWithKeyMembers(xs, assets[i].md5);
      var q :| 0 <= q < |xs| && Md5Keys(xs)[q] == assets[i].md5;
      Md5KeysAt(xs, q);
      assert xs[q] in assets[i].references;
    }
  }

  /** An object belongs to the references of exactly one asset: the one for its key. */
  lemma ReferencedOnce(xs: seq<Sb2Object>, assets: seq<Asset>, i: nat, j: nat, o: Sb2Object)
    requires assets == GroupByMd5(xs)
    requires i < |assets| && j < |assets|
    requires o in assets[i].references && o in assets[j].references
    ensures i == j
  {
    GroupByMd5Keys(xs, assets);
    GroupByMd5References(xs, assets);
  }

  lemma RefsWithKeySnoc(xs: seq<Sb2Object>, x: Sb2Object, k: string)
    ensures RefsWithKey(xs + [x], k) == RefsWithKey(xs, k) + if Md5Of(x) == k then [x] else []
  {
    assert (xs + [x])[..|xs|] == xs;
  }

  lemma {:induction false} RefsWithKeyAbsent(xs: seq<Sb2Object>, k: string)
    requires k !in Md5Keys(xs)
    ensures RefsWithKey(xs, k) == []
  {
    if xs != [] {
      var p := xs[..|xs| - 1];
      assert Md5Keys(xs) == Md5Keys(p) + [Md5Of(xs[|xs| - 1])];
      RefsWithKeyAbsent(p, k);
    }
  }

  /** The keys after one more input: the old ones, then the new key if it is new. */
  lemma AssetKeysSnoc(xs: seq<Sb2Object>, x: Sb2Object)
    ensures Distinct(Md5Keys(xs + [x])) ==
              if Md5Of(x) in Md5Keys(xs) then Distinct(Md5Keys(xs)) else Distinct(Md5Keys(xs)) + [Md5Of(x)]
  {
    Md5KeysSnoc(xs, x);
    DistinctSnoc(Md5Keys(xs), Md5Of(x));
  }

  /** After one more input, an asset whose key differs from the input's is unchanged. */
  lemma GroupByMd5SnocOther(xs: seq<Sb2Object>, x: Sb2Object, i: nat)
    requires i < |GroupByMd5(xs)| && GroupByMd5(xs)[i].md5 != Md5Of(x)
    ensures i < |GroupByMd5(xs + [x])| && GroupByMd5(xs + [x])[i] == GroupByMd5(xs)[i]
  {
    AssetKeysSnoc(xs, x);
    RefsWithKeySnoc(xs, x, GroupByMd5(xs)[i].md5);
  }


  lemma GroupByMd5SnocLast(xs: seq<Sb2Object>, x: Sb2Object)
    requires Md5Of(x) !in Md5Keys(xs)
    ensures |GroupByMd5(xs + [x])| == |GroupByMd5(xs)| + 1
    ensures GroupByMd5(xs + [x])[|GroupByMd5(xs)|] == Asset(Md5Of(x), AfterLastDot(Md5Of(x)), [x])
  {
    AssetKeysSnoc(xs, x);
    RefsWithKeyAbsent(xs, Md5Of(x));
    RefsWithKeySnoc(xs, x, Md5Of(x));
  }

  /** An input with a new key appends an asset holding just that input. */
  lemma GroupByMd5SnocNew(xs: seq<Sb2Object>, x: Sb2Object)
    requires Md5Of(x) !in Md5Keys(xs)
    ensures GroupByMd5(xs + [x]) == GroupByMd5(xs) + [Asset(Md5Of(x), AfterLastDot(Md5Of(x)), [x])]
  {
    var g, g' := GroupByMd5(xs), GroupByMd5(xs + [x]);
    GroupByMd5SnocLast(xs, x);
    forall i | 0 <= i < |g|
      ensures g'[i] == g[i]
    {
      assert Distinct(Md5Keys(xs))[i] in Md5Keys(xs);
      GroupByMd5SnocOther(xs, x, i);
    }
    assert g' == g + [Asset(Md5Of(x), AfterLastDot(Md5Of(x)), [x])];
  }

  /** An input with a known key is appended to the references of that key's asset. */
  lemma GroupByMd5SnocOld(xs: seq<Sb2Object>, x: Sb2Object, i: nat)
    requires i < |GroupByMd5(xs)| && GroupByMd5(xs)[i].md5 == Md5Of(x)
    ensures GroupByMd5(xs + [x]) ==
              GroupByMd5(xs)[i := GroupByMd5(xs)[i].(references := GroupByMd5(xs)[i].references + [x])]
  {
    var g, g' := GroupByMd5(xs), GroupByMd5(xs + [x]);
    assert Distinct(Md5Keys(xs))[i] in Md5Keys(xs);
    AssetKeysSnoc(xs, x);
    RefsWithKeySnoc(xs, x, Md5Of(x));
    forall j | 0 <= j < |g| && j != i
      ensures g'[j] == g[j]
    {
      GroupByMd5SnocOther(xs, x, j);
    }
    assert g' == g[i := g[i].(references := g[i].references + [x])];
  }

  /** `hashToAssetMap` maps exactly the keys seen so far to the index of their asset. */
  ghost predicate Indexes(hashToAssetMap: map<string, nat>, assets: seq<Asset>, keys: seq<string>) {
    && (forall k :: k in hashToAssetMap <==> k in keys)
    && (forall k :: k in hashToAssetMap ==>
          hashToAssetMap[k] < |assets| && assets[hashToAssetMap[k]].md5 == k)
  }

  /** Appending an asset under a new key, and indexing it, keeps the index exact. */
  lemma IndexesAppend(hashToAssetMap: map<string, nat>, assets: seq<Asset>, keys: seq<string>, a: Asset)
    requires Indexes(hashToAssetMap, assets, keys) && a.md5 !in hashToAssetMap
    ensures Indexes(hashToAssetMap[a.md5 := |assets|], assets + [a], keys + [a.md5])
  {
    var m := hashToAssetMap[a.md5 := |assets|];
    forall k | k in m
      ensures m[k] < |assets| + 1 && (assets + [a])[m[k]].md5 == k
    {
      if k != a.md5 {
        assert (assets + [a])[m[k]] == assets[hashToAssetMap[k]];
      }
    }
  }

  /** Growing the references of an indexed asset under a known key keeps the index exact. */
  lemma IndexesExtend(hashToAssetMap: map<string, nat>, assets: seq<Asset>, keys: seq<string>, k: string, x: Sb2Object)
    requires Indexes(hashToAssetMap, assets, keys) && k in hashToAssetMap
    ensures var i := hashToAssetMap[k];
              Indexes(hashToAssetMap, assets[i := assets[i].(references := assets[i].references + [x])], keys + [k])
  {
  }

  lemma IndexesNewKey(hashToAssetMap: map<string, nat>, xs: seq<Sb2Object>, x: Sb2Object)
    requires Indexes(hashToAssetMap, GroupByMd5(xs), Md5Keys(xs)) && Md5Of(x) !in hashToAssetMap
    ensures GroupByMd5(xs + [x]) == GroupByMd5(xs) + [Asset(Md5Of(x), AfterLastDot(Md5Of(x)), [x])]
    ensures Indexes(hashToAssetMap[Md5Of(x) := |GroupByMd5(xs)|], GroupByMd5(xs + [x]), Md5Keys(xs + [x]))
  {
    Md5KeysSnoc(xs, x);
    GroupByMd5SnocNew(xs, x);
    IndexesAppend(hashToAssetMap, GroupByMd5(xs), Md5Keys(xs), Asset(Md5Of(x), AfterLastDot(Md5Of(x)), [x]));
  }

  lemma IndexesOldKey(hashToAssetMap: map<string, nat>, xs: seq<Sb2Object>, x: Sb2Object)
    requires Indexes(hashToAssetMap, GroupByMd5(xs), Md5Keys(xs)) && Md5Of(x) in hashToAssetMap
    ensures var g, i := GroupByMd5(xs), hashToAssetMap[Md5Of(x)];
              GroupByMd5(xs + [x]) == g[i := g[i].(references := g[i].references + [x])]
    ensures Indexes(hashToAssetMap, GroupByMd5(xs + [x]), Md5Keys(xs + [x]))
  {
    Md5KeysSnoc(xs, x);
    GroupByMd5SnocOld(xs, x, hashToAssetMap[Md5Of(x)]);
    IndexesExtend(hashToAssetMap, GroupByMd5(xs), Md5Keys(xs), Md5Of(x), x);
  }

  /**
   * `processAssets`: one pass over the inputs with a key-to-asset index; a new key appends an
   * asset, and every input is appended to its key's references.
   */
  method ProcessAssets(inputs: seq<Sb2Object>) returns (allAssets: seq<Asset>)
    ensures allAssets == GroupByMd5(inputs)
  {
    var hashToAssetMap: map<string, nat> := map[];
    allAssets := [];
    for n := 0 to |inputs|
      invariant allAssets == GroupByMd5(inputs[..n])
      invariant Indexes(hashToAssetMap, allAssets, Md5Keys(inputs[..n]))
    {
      var data := inputs[n];
      var md5ext := Md5Of(data);
      assert inputs[..n + 1] == inputs[..n] + [data];
      if md5ext !in hashToAssetMap {
        IndexesNewKey(hashToAssetMap, inputs[..n], data);
        hashToAssetMap := hashToAssetMap[md5ext := |allAssets|];
        allAssets := allAssets + [Asset(md5ext, AfterLastDot(md5ext), [data])];
      } else {
        IndexesOldKey(hashToAssetMap, inputs[..n], data);
        var i := hashToAssetMap[md5ext];
        allAssets := allAssets[i := allAssets[i].(references := allAssets[i].references + [data])];
      }
    }
    assert inputs[..|inputs|] == inputs;
  }

  /** The two counters of `claimAccumulatedID`: images and sounds are numbered separately. */
  datatype Family = Image | Sound

  const ImageExtensions: seq<string> := ["svg", "png", "jpg", "jpeg", "bmp"]
  const SoundExtensions: seq<string> := ["wav", "mp3"]

  /** The counter an extension draws from; no extension is both an image and a sound. */
  function FamilyOf(extension: string): (f: Option<Family>)
    ensures f == Some(Image) <==> extension in ImageExtensions
    ensures f == Some(Sound) <==> extension in SoundExtensions
  {
    if extension in ImageExtensions then Some(Image)
    else if extension in SoundExtensions then Some(Sound)
    else None
  }

  /**
   * `claimAccumulatedID`: returns the current value of the extension's counter and the
   * counters after it is incremented; an unknown extension throws and leaves both alone.
   */
  method ClaimAccumulatedId(extension: string, image: nat, sound: nat)
    returns (r: Result<nat, Error>, image': nat, sound': nat)
    ensures FamilyOf(extension) == Some(Image) ==>
              r == Success(image) && image' == image + 1 && sound' == sound
    ensures FamilyOf(extension) == Some(Sound) ==>
              r == Success(sound) && image' == image && sound' == sound + 1
    ensures FamilyOf(extension) == None ==>
              r == Failure(PlainError("unknown extension: " + extension)) && image' == image && sound' == sound
  {
    if extension in ImageExtensions {
      r, image', sound' := Success(image), image + 1, sound;
    } else if extension in SoundExtensions {
      r, image', sound' := Success(sound), image, sound + 1;
    } else {
      r, image', sound' := Failure(PlainError("unknown extension: " + extension)), image, sound;
    }
  }

  /** How many of `exts` draw from counter `f`. */
  function CountFamily(exts: seq<string>, f: Family): (n: nat)
    ensures n <= |exts|
  {
    if exts == [] then 0
    else CountFamily(exts[..|exts| - 1], f) + if FamilyOf(exts[|exts| - 1]) == Some(f) then 1 else 0
  }

  /**
   * The ID the asset at index `j` is given when the assets are added in order: the number of
   * earlier assets that draw from the same counter.
   */
  function IdFor(exts: seq<string>, j: nat): nat
    requires j < |exts| && FamilyOf(exts[j]).Some?
  {
    CountFamily(exts[..j], FamilyOf(exts[j]).value)
  }

  lemma CountFamilyStep(exts: seq<string>, j: nat, f: Family)
    requires j < |exts|
    ensures CountFamily(exts[..j + 1], f) ==
              CountFamily(exts[..j], f) + if FamilyOf(exts[j]) == Some(f) then 1 else 0
  {
    assert exts[..j + 1][..j] == exts[..j];
  }

  lemma {:induction false} CountFamilyMonotone(exts: seq<string>, i: nat, j: nat, f: Family)
    requires i <= j <= |exts|
    ensures CountFamily(exts[..i], f) <= CountFamily(exts[..j], f)
  {
    if i < j {
      CountFamilyMonotone(exts, i, j - 1, f);
      CountFamilyStep(exts, j - 1, f);
    }
  }

  /**
   * Within one counter, IDs strictly increase in asset order and stay below the number of
   * assets that draw from it: no two assets of a family share an ID.
   */
  lemma IdsIncreasing(exts: seq<string>, f: Family)
    ensures forall i, j :: 0 <= i < j < |exts| && FamilyOf(exts[i]) == Some(f) && FamilyOf(exts[j]) == Some(f) ==>
              IdFor(exts, i) < IdFor(exts, j)
    ensures forall j :: 0 <= j < |exts| && FamilyOf(exts[j]) == Some(f) ==> IdFor(exts, j) < CountFamily(exts, f)
  {
    forall i, j | 0 <= i < j < |exts| && FamilyOf(exts[i]) == Some(f) && FamilyOf(exts[j]) == Some(f)
      ensures IdFor(exts, i) < IdFor(exts, j)
    {
      CountFamilyStep(exts, i, f);
      CountFamilyMonotone(exts, i + 1, j, f);
    }
    forall j | 0 <= j < |exts| && FamilyOf(exts[j]) == Some(f)
      ensures IdFor(exts, j) < CountFamily(exts, f)
    {
      CountFamilyStep(exts, j, f);
      CountFamilyMonotone(exts, j + 1, |exts|, f);
      assert exts[..|exts|] == exts;
    }
  }

  /** No gaps: every number below a family's count is the ID of one of its assets. */
  lemma {:induction false} IdsOnto(exts: seq<string>, f: Family, n: nat)
    requires n < CountFamily(exts, f)
    ensures exists j :: 0 <= j < |exts| && FamilyOf(exts[j]) == Some(f) && IdFor(exts, j) == n
  {
    var p := exts[..|exts| - 1];
    assert exts[..|p|] == p;
    if n < CountFamily(p, f) {
      IdsOnto(p, f, n);
      var j :| 0 <= j < |p| && FamilyOf(p[j]) == Some(f) && IdFor(p, j) == n;
      assert exts[..j] == p[..j];
      assert IdFor(exts, j) == n;
    } else {
      assert IdFor(exts, |p|) == n;
    }
  }

  /** The archive path of an asset: `{id}.{extension}`. */
  function AssetPath(id: nat, extension: string): string {
    NatToString(id) + "." + extension
  }

  /** The ID and the extension can be read back from a path. */
  lemma AssetPathInjective(id1: nat, e1: string, id2: nat, e2: string)
    ensures AssetPath(id1, e1) == AssetPath(id2, e2) ==> id1 == id2 && e1 == e2
  {
    DigitsHaveNoDot(NatToString(id1));
    DigitsHaveNoDot(NatToString(id2));
    if AssetPath(id1, e1) == AssetPath(id2, e2) {
      DotJoinInjective(NatToString(id1), e1, NatToString(id2), e2);
      NatToStringInjective(id1, id2);
    }
  }

  /** An asset path starts with a digit, so it is never `project.json`. */
  lemma AssetPathNotProjectJson(id: nat, extension: string)
    ensures AssetPath(id, extension) != ProjectJsonPath
  {
    assert AssetPath(id, extension)[0] == NatToString(id)[0];
    assert ProjectJsonPath[0] == 'p';
  }

  /** `ASSETS_API` with `$path` replaced by the asset's key. */
  function AssetUrl(md5: string): string {
    "https://cdn.assets.scratch.mit.edu/internalapi/asset/" + md5 + "/get/"
  }

  /** The ID fields after `addAsset` claimed `id`: each property that is present is set to `id`. */
  function Rewrite(f: IdFields, id: nat): (g: IdFields)
    ensures g.baseLayerID.Some? == f.baseLayerID.Some? && (g.baseLayerID.Some? ==> g.baseLayerID.value == id)
    ensures g.soundID.Some? == f.soundID.Some? && (g.soundID.Some? ==> g.soundID.value == id)
    ensures g.penLayerID.Some? == f.penLayerID.Some? && (g.penLayerID.Some? ==> g.penLayerID.value == id)
  {
    IdFields(
      if f.baseLayerID.Some? then Some(id) else None,
      if f.soundID.Some? then Some(id) else None,
      if f.penLayerID.Some? then Some(id) else None)
  }

  /** The ID fields of every object of `ids` are the ones the heap holds. */
  ghost predicate HeapIds(ids: map<Sb2Object, IdFields>)
    reads ids.Keys
  {
    forall o :: o in ids ==> Ids(o) == ids[o]
  }

  /** The ID fields `m` after one asset's references were given `id`. */
  function RewriteRefs(m: map<Sb2Object, IdFields>, references: seq<Sb2Object>, id: nat): (m': map<Sb2Object, IdFields>)
    ensures m'.Keys == m.Keys
  {
    map o | o in m :: if o in references then Rewrite(m[o], id) else m[o]
  }

  /** The loop of `addAsset` over `asset.references`. */
  method RewriteReferences(references: seq<Sb2Object>, id: nat)
    modifies set o | o in references
    ensures forall o :: o in references ==> Ids(o) == Rewrite(old(Ids(o)), id)
  {
    for n := 0 to |references|
      invariant forall o :: o in references[..n] ==> Ids(o) == Rewrite(old(Ids(o)), id)
      invariant forall o :: o in references[n..] && o !in references[..n] ==> Ids(o) == old(Ids(o))
    {
      var reference := references[n];
      assert references[..n + 1] == references[..n] + [reference];
      if reference.baseLayerID.Some? {
        reference.baseLayerID := Some(id);
      }
      if reference.soundID.Some? {
        reference.soundID := Some(id);
      }
      if reference.penLayerID.Some? {
        reference.penLayerID := Some(id);
      }
    }
    assert references[..|references|] == references;
  }

  /** What the promise of `addAsset` settles to, once the asset has been given `id`. */
  function FetchedAsset(asset: Asset, id: nat, fetchAsset: string -> Option<Bytes>): (r: Result<FileEntry, Error>)
    ensures r.Failure? <==> fetchAsset(AssetUrl(asset.md5)).None?
    ensures r.Failure? ==> r.error == NetworkError(AssetUrl(asset.md5))
    ensures r.Success? ==> r.value == FileEntry(AssetPath(id, asset.extension), Binary(fetchAsset(AssetUrl(asset.md5)).value))
  {
    var body := fetchAsset(AssetUrl(asset.md5));
    if body.None? then Failure(NetworkError(AssetUrl(asset.md5)))
    else Success(FileEntry(AssetPath(id, asset.extension), Binary(body.value)))
  }

  /**
   * `addAsset`: claims an ID (a synchronous throw for an unknown extension, the outer
   * `Failure`), writes it into every reference, then fetches the asset (the inner result is
   * what the returned promise settles to).
   */
  method AddAsset(asset: Asset, image: nat, sound: nat, fetchAsset: string -> Option<Bytes>,
                  ghost ids: map<Sb2Object, IdFields>)
    returns (r: Result<Result<FileEntry, Error>, Error>, image': nat, sound': nat)
    requires HeapIds(ids) && forall o :: o in asset.references ==> o in ids
    modifies set o | o in asset.references
    ensures FamilyOf(asset.extension) == None ==>
              && r == Failure(PlainError("unknown extension: " + asset.extension))
              && image' == image && sound' == sound
              && HeapIds(ids)
    ensures FamilyOf(asset.extension) == Some(Image) ==>
              && image' == image + 1 && sound' == sound
              && HeapIds(RewriteRefs(ids, asset.references, image))
              && r == Success(FetchedAsset(asset, image, fetchAsset))
    ensures FamilyOf(asset.extension) == Some(Sound) ==>
              && image' == image && sound' == sound + 1
              && HeapIds(RewriteRefs(ids, asset.references, sound))
              && r == Success(FetchedAsset(asset, sound, fetchAsset))
  {
    var accumulator;
    accumulator, image', sound' := ClaimAccumulatedId(asset.extension, image, sound);
    if accumulator.Failure? {
      return Failure(accumulator.error), image', sound';
    }
    RewriteReferences(asset.references, accumulator.value);
    var url := AssetUrl(asset.md5);
    var body := fetchAsset(url);
    if body.None? {
      return Success(Failure(NetworkError(url))), image', sound';
    }
    var path := AssetPath(accumulator.value, asset.extension);
    return Success(Success(FileEntry(path, Binary(body.value)))), image', sound';
  }

  /** Each object is referenced by one asset only, and only inputs are referenced. */
  lemma ReferencesDisjoint(xs: seq<Sb2Object>, assets: seq<Asset>)
    requires assets == GroupByMd5(xs)
    ensures forall i, j, o :: 0 <= i < |assets| && 0 <= j < |assets| && o in assets[i].references && o in assets[j].references ==> i == j
    ensures forall i, o :: 0 <= i < |assets| && o in assets[i].references ==> o in xs
  {
    forall i, j, o | 0 <= i < |assets| && 0 <= j < |assets| && o in assets[i].references && o in assets[j].references
      ensures i == j
    {
      ReferencedOnce(xs, assets, i, j, o);
    }
    GroupByMd5References(xs, assets);
  }

  function Extensions(assets: seq<Asset>): (exts: seq<string>)
    ensures |exts| == |assets|
    ensures forall j :: 0 <= j < |assets| ==> exts[j] == assets[j].extension
  {
    seq(|assets|, j requires 0 <= j < |assets| => assets[j].extension)
  }

  /** Which extensions `claimAccumulatedID` rejects. */
  function Unknowns(exts: seq<string>): (unknown: seq<bool>)
    ensures |unknown| == |exts|
    ensures forall j :: 0 <= j < |exts| ==> unknown[j] == FamilyOf(exts[j]).None?
  {
    seq(|exts|, j requires 0 <= j < |exts| => FamilyOf(exts[j]).None?)
  }

  /** The index of the first asset whose extension is unknown, or the number of assets. */
  function FirstUnknown(exts: seq<string>): (u: nat)
    ensures u <= |exts|
    ensures u < |exts| ==> FamilyOf(exts[u]) == None
    ensures forall j :: 0 <= j < u ==> FamilyOf(exts[j]).Some?
  {
    FirstIndex(Unknowns(exts), true)
  }

  lemma FirstUnknownIs(exts: seq<string>, u: nat)
    requires u <= |exts|
    requires u < |exts| ==> FamilyOf(exts[u]) == None
    requires forall j :: 0 <= j < u ==> FamilyOf(exts[j]).Some?
    ensures FirstUnknown(exts) == u
  {
    FirstIndexUnique(Unknowns(exts), true, u);
  }

  /** The first `n` assets have known extensions and fetch successfully. */
  predicate ArchivedUpTo(assets: seq<Asset>, n: nat, fetchAsset: string -> Option<Bytes>)
    requires n <= |assets|
  {
    forall j :: 0 <= j < n ==> FamilyOf(assets[j].extension).Some? && fetchAsset(AssetUrl(assets[j].md5)).Some?
  }

  /** The file asset `j` becomes: its fetched body under `{id}.{extension}`. */
  function ArchivedFile(assets: seq<Asset>, j: nat, fetchAsset: string -> Option<Bytes>): FileEntry
    requires j < |assets| && ArchivedUpTo(assets, j + 1, fetchAsset)
  {
    FileEntry(AssetPath(IdFor(Extensions(assets), j), assets[j].extension),
              Binary(fetchAsset(AssetUrl(assets[j].md5)).value))
  }

  /** The files the first `n` assets become, in asset order. */
  function ArchivedFiles(assets: seq<Asset>, n: nat, fetchAsset: string -> Option<Bytes>): (files: seq<FileEntry>)
    requires n <= |assets| && ArchivedUpTo(assets, n, fetchAsset)
    ensures |files| == n
  {
    if n == 0 then [] else ArchivedFiles(assets, n - 1, fetchAsset) + [ArchivedFile(assets, n - 1, fetchAsset)]
  }

  lemma {:induction false} ArchivedFilesAt(assets: seq<Asset>, n: nat, fetchAsset: string -> Option<Bytes>, k: nat)
    requires n <= |assets| && ArchivedUpTo(assets, n, fetchAsset) && k < n
    ensures ArchivedFiles(assets, n, fetchAsset)[k] == ArchivedFile(assets, k, fetchAsset)
  {
    if k < n - 1 {
      ArchivedFilesAt(assets, n - 1, fetchAsset, k);
    }
  }

  /** The path of the `k`-th archived file. */
  lemma ArchivedPath(assets: seq<Asset>, fetchAsset: string -> Option<Bytes>, k: nat)
    requires ArchivedUpTo(assets, |assets|, fetchAsset) && k < |assets|
    ensures ArchivedFiles(assets, |assets|, fetchAsset)[k].path
            == AssetPath(IdFor(Extensions(assets), k), assets[k].extension)
  {
    ArchivedFilesAt(assets, |assets|, fetchAsset, k);
  }

  /** Two assets with the same extension get different IDs, the later one the larger. */
  lemma SameExtensionIds(exts: seq<string>, i: nat, j: nat)
    requires i < j < |exts| && exts[i] == exts[j] && FamilyOf(exts[i]).Some?
    ensures IdFor(exts, i) < IdFor(exts, j)
  {
    var f := FamilyOf(exts[i]).value;
    CountFamilyStep(exts, i, f);
    CountFamilyMonotone(exts, i + 1, j, f);
  }

  lemma ArchivedPathsDiffer(assets: seq<Asset>, fetchAsset: string -> Option<Bytes>, i: nat, j: nat)
    requires ArchivedUpTo(assets, |assets|, fetchAsset) && i < j < |assets|
    ensures ArchivedFiles(assets, |assets|, fetchAsset)[i].path != ArchivedFiles(assets, |assets|, fetchAsset)[j].path
  {
    var exts := Extensions(assets);
    ArchivedPath(assets, fetchAsset, i);
    ArchivedPath(assets, fetchAsset, j);
    var idI, idJ := IdFor(exts, i), IdFor(exts, j);
    AssetPathInjective(idI, assets[i].extension, idJ, assets[j].extension);
    if assets[i].extension == assets[j].extension {
      SameExtensionIds(exts, i, j);
    }
  }

  /** The archived asset paths are pairwise distinct: IDs differ within a family, extensions across. */
  lemma ArchivedPathsDistinct(assets: seq<Asset>, fetchAsset: string -> Option<Bytes>)
    requires ArchivedUpTo(assets, |assets|, fetchAsset)
    ensures DistinctPaths(ArchivedFiles(assets, |assets|, fetchAsset))
  {
    var files := ArchivedFiles(assets, |assets|, fetchAsset);
    forall i, j | 0 <= i < j < |files|
      ensures files[i].path != files[j].path
    {
      ArchivedPathsDiffer(assets, fetchAsset, i, j);
    }
  }

  /** No archived asset is named `project.json`. */
  lemma ArchivedPathsNotProjectJson(assets: seq<Asset>, fetchAsset: string -> Option<Bytes>)
    requires ArchivedUpTo(assets, |assets|, fetchAsset)
    ensures forall q :: 0 <= q < |assets| ==> ArchivedFiles(assets, |assets|, fetchAsset)[q].path != ProjectJsonPath
  {
    forall q | 0 <= q < |assets|
      ensures ArchivedFiles(assets, |assets|, fetchAsset)[q].path != ProjectJsonPath
    {
      ArchivedPath(assets, fetchAsset, q);
      AssetPathNotProjectJson(IdFor(Extensions(assets), q), assets[q].extension);
    }
  }

  /**
   * The archive of a fully loaded project: `project.json` once and first, then the assets,
   * all paths distinct, and no other order is sorted.
   */
  lemma Sb2ArchiveLayout(assets: seq<Asset>, fetchAsset: string -> Option<Bytes>, pj: FileEntry, files: seq<FileEntry>)
    requires ArchivedUpTo(assets, |assets|, fetchAsset) && pj.path == ProjectJsonPath
    requires Sorted(files) && multiset(files) == multiset(ArchivedFiles(assets, |assets|, fetchAsset) + [pj])
    ensures |files| == |assets| + 1 && files[0] == pj
    ensures forall i :: 0 < i < |files| ==> files[i].path != ProjectJsonPath
    ensures DistinctPaths(files)
    ensures forall t :: Sorted(t) && multiset(t) == multiset(files) ==> t == files
  {
    var pending := ArchivedFiles(assets, |assets|, fetchAsset);
    ArchivedPathsDistinct(assets, fetchAsset);
    ArchivedPathsNotProjectJson(assets, fetchAsset);
    ProjectJsonFirst(files, pending, pj);
    SortedUnique(files);
  }

  /** The serialized form of one object at the moment `JSON.stringify` runs. */
  function RecordOf(o: Sb2Object): Sb2Record
    reads o
  {
    Sb2Record(o.md5, o.baseLayerMD5, o.penLayerMD5, o.baseLayerID, o.soundID, o.penLayerID)
  }

  function RecordsOf(os: seq<Sb2Object>): (rs: seq<Sb2Record>)
    reads set o | o in os
    ensures |rs| == |os|
  {
    if os == [] then [] else [RecordOf(os[0])] + RecordsOf(os[1..])
  }

  function SpritesOf(cs: seq<Sb2Object>): (sprites: seq<Sb2Sprite>)
    reads ObjectsOf(cs)
    ensures |sprites| == |cs|
  {
    if cs == [] then []
    else
      var c := cs[0];
      [Sb2Sprite(RecordOf(c), c.listName, c.target, RecordsOf(c.costumes), RecordsOf(c.sounds))]
      + SpritesOf(cs[1..])
  }

  /** `JSON.stringify(projectData)`, as the manifest stands when it is called. */
  function StageOf(stage: Sb2Object): Sb2Stage
    reads ManifestObjects(stage)
  {
    var all := [stage] + AllChildren(stage);
    assert all[1..] == AllChildren(stage);
    Sb2Stage(
      RecordOf(stage), RecordsOf(stage.costumes), RecordsOf(stage.sounds),
      if stage.children.Some? then Some(SpritesOf(stage.children.value)) else None)
  }

  /** No object is a reference of two assets, as `processAssets` guarantees. */
  predicate ReferencedOnceEach(assets: seq<Asset>) {
    forall i, j, o :: 0 <= i < |assets| && 0 <= j < |assets| && o in assets[i].references && o in assets[j].references ==> i == j
  }

  /** What the promise of `addAsset` for asset `j` settles to, once IDs were claimed in order. */
  predicate AssetPromises(assets: seq<Asset>, fetchAsset: string -> Option<Bytes>, promises: seq<Result<FileEntry, Error>>)
    requires FirstUnknown(Extensions(assets)) == |assets|
  {
    && |promises| == |assets|
    && forall j :: 0 <= j < |assets| ==>
         promises[j] == FetchedAsset(assets[j], IdFor(Extensions(assets), j), fetchAsset)
  }

  /** What the `addAsset` promises of the first `|ids|` assets settle to, asset `j` with ID `ids[j]`. */
  function FetchedAssets(assets: seq<Asset>, ids: seq<nat>, fetchAsset: string -> Option<Bytes>): (promises: seq<Result<FileEntry, Error>>)
    requires |ids| <= |assets|
    ensures |promises| == |ids|
  {
    seq(|ids|, j requires 0 <= j < |ids| => FetchedAsset(assets[j], ids[j], fetchAsset))
  }

  /** With the IDs claimed in order, FetchedAssets is what AssetPromises asks for. */
  lemma FetchedAssetsArePromises(assets: seq<Asset>, fetchAsset: string -> Option<Bytes>)
    requires FirstUnknown(Extensions(assets)) == |assets|
    ensures AssetPromises(assets, fetchAsset, FetchedAssets(assets, ClaimedIds(Extensions(assets), |assets|), fetchAsset))
  {
  }

  /**
   * The ID fields after the first `|ids|` assets were added, asset `i` with ID `ids[i]`,
   * starting from `before`.
   */
  function AddedIds(assets: seq<Asset>, before: map<Sb2Object, IdFields>, ids: seq<nat>): (m: map<Sb2Object, IdFields>)
    requires |ids| <= |assets|
    ensures m.Keys == before.Keys
  {
    if ids == [] then before
    else RewriteRefs(AddedIds(assets, before, ids[..|ids| - 1]), assets[|ids| - 1].references, ids[|ids| - 1])
  }

  /**
   * With each object referenced by one asset at most, adding assets changes the ID fields of
   * exactly the references of the assets added, each to its asset's ID.
   */
  lemma {:induction false} AddedIdsAt(assets: seq<Asset>, before: map<Sb2Object, IdFields>, ids: seq<nat>, i: nat, o: Sb2Object)
    requires ReferencedOnceEach(assets) && |ids| <= |assets|
    requires o in before && i < |assets| && o in assets[i].references
    ensures AddedIds(assets, before, ids)[o] == if i < |ids| then Rewrite(before[o], ids[i]) else before[o]
  {
    if ids != [] {
      var k := |ids| - 1;
      AddedIdsAt(assets, before, ids[..k], i, o);
      if i != k {
        assert o !in assets[k].references;
      }
    }
  }

  /** An object referenced by no asset keeps its ID fields. */
  lemma {:induction false} AddedIdsUnreferenced(assets: seq<Asset>, before: map<Sb2Object, IdFields>, ids: seq<nat>, o: Sb2Object)
    requires |ids| <= |assets| && o in before
    requires forall i :: 0 <= i < |assets| ==> o !in assets[i].references
    ensures AddedIds(assets, before, ids)[o] == before[o]
  {
    if ids != [] {
      AddedIdsUnreferenced(assets, before, ids[..|ids| - 1], o);
    }
  }

  /** The IDs `claimAccumulatedID` hands out to the first `n` assets, all of known extensions. */
  function ClaimedIds(exts: seq<string>, n: nat): (ids: seq<nat>)
    requires n <= |exts| && forall j :: 0 <= j < n ==> FamilyOf(exts[j]).Some?
    ensures |ids| == n && forall j :: 0 <= j < n ==> ids[j] == IdFor(exts, j)
  {
    seq(n, j requires 0 <= j < n => IdFor(exts, j))
  }

  lemma ClaimedIdsStep(exts: seq<string>, n: nat)
    requires n < |exts| && forall j :: 0 <= j <= n ==> FamilyOf(exts[j]).Some?
    ensures ClaimedIds(exts, n + 1) == ClaimedIds(exts, n) + [IdFor(exts, n)]
  {
  }

  /**
   * One turn of `assets.map`: `addAsset` on the asset at index `n`, once the assets before it
   * were added with known extensions and the counters stand at the IDs they claimed.
   */
  method AddNext(assets: seq<Asset>, n: nat, image: nat, sound: nat, fetchAsset: string -> Option<Bytes>,
                 ghost before: map<Sb2Object, IdFields>)
    returns (added: Result<Result<FileEntry, Error>, Error>, image': nat, sound': nat)
    requires n < |assets| && forall j :: 0 <= j < n ==> FamilyOf(Extensions(assets)[j]).Some?
    requires image == CountFamily(Extensions(assets)[..n], Image) && sound == CountFamily(Extensions(assets)[..n], Sound)
    requires HeapIds(AddedIds(assets, before, ClaimedIds(Extensions(assets), n)))
    requires forall o :: o in assets[n].references ==> o in before
    modifies before.Keys
    ensures FamilyOf(Extensions(assets)[n]) == None ==>
              && added == Failure(PlainError("unknown extension: " + assets[n].extension))
              && HeapIds(AddedIds(assets, before, ClaimedIds(Extensions(assets), n)))
    ensures FamilyOf(Extensions(assets)[n]).Some? ==>
              && added == Success(FetchedAsset(assets[n], IdFor(Extensions(assets), n), fetchAsset))
              && image' == CountFamily(Extensions(assets)[..n + 1], Image)
              && sound' == CountFamily(Extensions(assets)[..n + 1], Sound)
              && HeapIds(AddedIds(assets, before, ClaimedIds(Extensions(assets), n + 1)))
  {
    added, image', sound' := AddAsset(assets[n], image, sound, fetchAsset, AddedIds(assets, before, ClaimedIds(Extensions(assets), n)));
    if added.Success? {
      NextIds(assets, before, n, image, sound);
    }
  }

  /** The ID the asset at index `n` claims from the counters, and what adding it does to the ID fields. */
  lemma NextIds(assets: seq<Asset>, before: map<Sb2Object, IdFields>, n: nat, image: nat, sound: nat)
    requires n < |assets| && forall j :: 0 <= j <= n ==> FamilyOf(Extensions(assets)[j]).Some?
    requires image == CountFamily(Extensions(assets)[..n], Image) && sound == CountFamily(Extensions(assets)[..n], Sound)
    ensures var id := if FamilyOf(assets[n].extension) == Some(Image) then image else sound;
            && id == IdFor(Extensions(assets), n)
            && AddedIds(assets, before, ClaimedIds(Extensions(assets), n + 1))
               == RewriteRefs(AddedIds(assets, before, ClaimedIds(Extensions(assets), n)), assets[n].references, id)
    ensures CountFamily(Extensions(assets)[..n + 1], Image) == if FamilyOf(assets[n].extension) == Some(Image) then image + 1 else image
    ensures CountFamily(Extensions(assets)[..n + 1], Sound) == if FamilyOf(assets[n].extension) == Some(Sound) then sound + 1 else sound
  {
    var exts := Extensions(assets);
    var ids := ClaimedIds(exts, n);
    var id := if FamilyOf(assets[n].extension) == Some(Image) then image else sound;
    assert exts[n] == assets[n].extension && id == IdFor(exts, n);
    ClaimedIdsStep(exts, n);
    assert (ids + [id])[..n] == ids;
    CountFamilyStep(exts, n, Image);
    CountFamilyStep(exts, n, Sound);
  }

  lemma FetchedAssetsSnoc(assets: seq<Asset>, ids: seq<nat>, id: nat, fetchAsset: string -> Option<Bytes>)
    requires |ids| < |assets|
    ensures FetchedAssets(assets, ids + [id], fetchAsset) ==
              FetchedAssets(assets, ids, fetchAsset) + [FetchedAsset(assets[|ids|], id, fetchAsset)]
  {
    var l, r := FetchedAssets(assets, ids + [id], fetchAsset), FetchedAssets(assets, ids, fetchAsset) + [FetchedAsset(assets[|ids|], id, fetchAsset)];
    forall j | 0 <= j < |l|
      ensures l[j] == r[j]
    {
      if j < |ids| {
        assert (ids + [id])[j] == ids[j];
      }
    }
  }

  lemma FetchedAssetsStep(assets: seq<Asset>, n: nat, fetchAsset: string -> Option<Bytes>)
    requires n < |assets| && forall j :: 0 <= j <= n ==> FamilyOf(Extensions(assets)[j]).Some?
    ensures FetchedAssets(assets, ClaimedIds(Extensions(assets), n + 1), fetchAsset) ==
              FetchedAssets(assets, ClaimedIds(Extensions(assets), n), fetchAsset)
              + [FetchedAsset(assets[n], IdFor(Extensions(assets), n), fetchAsset)]
  {
    ClaimedIdsStep(Extensions(assets), n);
    FetchedAssetsSnoc(assets, ClaimedIds(Extensions(assets), n), IdFor(Extensions(assets), n), fetchAsset);
  }

  /**
   * `assets.map((a) => addAsset(a))`: adds the assets in order, claiming an ID for each and
   * writing it into the asset's references; the first unknown extension throws out of the
   * `map`. The ID fields of the objects of `before` end as AddedIds says for the assets added.
   */
  method AddAssets(assets: seq<Asset>, fetchAsset: string -> Option<Bytes>, ghost before: map<Sb2Object, IdFields>)
    returns (r: Result<seq<Result<FileEntry, Error>>, Error>)
    requires HeapIds(before)
    requires forall i, o :: 0 <= i < |assets| && o in assets[i].references ==> o in before
    modifies before.Keys
    ensures FirstUnknown(Extensions(assets)) < |assets| ==>
              r == Failure(PlainError("unknown extension: " + assets[FirstUnknown(Extensions(assets))].extension))
    ensures FirstUnknown(Extensions(assets)) == |assets| ==>
              r.Success? && AssetPromises(assets, fetchAsset, r.value)
    ensures HeapIds(AddedIds(assets, before, ClaimedIds(Extensions(assets), FirstUnknown(Extensions(assets)))))
  {
    ghost var exts := Extensions(assets);
    var image, sound := 0, 0;
    var promises: seq<Result<FileEntry, Error>> := [];
    for n := 0 to |assets|
      invariant forall j :: 0 <= j < n ==> FamilyOf(exts[j]).Some?
      invariant promises == FetchedAssets(assets, ClaimedIds(exts, n), fetchAsset)
      invariant image == CountFamily(exts[..n], Image) && sound == CountFamily(exts[..n], Sound)
      invariant HeapIds(AddedIds(assets, before, ClaimedIds(exts, n)))
    {
      var added;
      added, image, sound := AddNext(assets, n, image, sound, fetchAsset, before);
      if added.Failure? {
        FirstUnknownIs(exts, n);
        return Failure(added.error);
      }
      FetchedAssetsStep(assets, n, fetchAsset);
      promises := promises + [added.value];
    }
    FirstUnknownIs(exts, |assets|);
    FetchedAssetsArePromises(assets, fetchAsset);
    return Success(promises);
  }

  /**
   * Gathering the asset promises: the files of every asset when every fetch succeeds,
   * otherwise the error of a failed fetch.
   */
  lemma GatheredAssets(assets: seq<Asset>, fetchAsset: string -> Option<Bytes>, promises: seq<Result<FileEntry, Error>>)
    requires FirstUnknown(Extensions(assets)) == |assets| && AssetPromises(assets, fetchAsset, promises)
    ensures PromiseAll(promises).Success? <==> ArchivedUpTo(assets, |assets|, fetchAsset)
    ensures PromiseAll(promises).Success? ==> PromiseAll(promises).value == ArchivedFiles(assets, |assets|, fetchAsset)
    ensures PromiseAll(promises).Failure? ==>
              exists j :: 0 <= j < |assets| && fetchAsset(AssetUrl(assets[j].md5)).None?
                          && PromiseAll(promises).error == NetworkError(AssetUrl(assets[j].md5))
  {
    var all := PromiseAll(promises);
    if all.Success? {
      var files := ArchivedFiles(assets, |assets|, fetchAsset);
      forall k | 0 <= k < |assets|
        ensures all.value[k] == files[k]
      {
        ArchivedFilesAt(assets, |assets|, fetchAsset, k);
      }
    } else {
      var j :| 0 <= j < |promises| && promises[j] == Failure(all.error);
      assert fetchAsset(AssetUrl(assets[j].md5)).None?;
    }
  }

  /** The ID fields of every manifest object at one moment. */
  ghost function IdSnapshot(stage: Sb2Object): (m: map<Sb2Object, IdFields>)
    reads ManifestObjects(stage)
    ensures m.Keys == ManifestObjects(stage)
    ensures forall o :: o in m ==> m[o] == Ids(o)
  {
    map o | o in ManifestObjects(stage) :: Ids(o)
  }

  /** A map that holds every manifest object's current ID fields is the snapshot. */
  lemma SnapshotIs(stage: Sb2Object, m: map<Sb2Object, IdFields>)
    requires m.Keys == ManifestObjects(stage) && HeapIds(m)
    ensures IdSnapshot(stage) == m
  {
  }

  /** The assets `processAssets` builds from a manifest whose `children` is an array. */
  function StageAssets(stage: Sb2Object): (assets: seq<Asset>)
    requires stage.children.Some?
    ensures ReferencedOnceEach(assets)
    ensures forall i, o :: 0 <= i < |assets| && o in assets[i].references ==> o in AssetInputs(stage).value
  {
    var inputs := AssetInputs(stage).value;
    ReferencesDisjoint(inputs, GroupByMd5(inputs));
    GroupByMd5(inputs)
  }

  /** The ID fields after the assets up to the first unknown extension were added. */
  ghost function RewrittenIds(stage: Sb2Object, before: map<Sb2Object, IdFields>): (after: map<Sb2Object, IdFields>)
    requires stage.children.Some?
    ensures after.Keys == before.Keys
  {
    var exts := Extensions(StageAssets(stage));
    AddedIds(StageAssets(stage), before, ClaimedIds(exts, FirstUnknown(exts)))
  }

  /** An object that is not an input of `processAssets` keeps its ID fields. */
  lemma RewrittenIdsUnreferenced(stage: Sb2Object, before: map<Sb2Object, IdFields>, o: Sb2Object)
    requires stage.children.Some? && o in before && o !in AssetInputs(stage).value
    ensures RewrittenIds(stage, before)[o] == before[o]
  {
    var exts := Extensions(StageAssets(stage));
    AddedIdsUnreferenced(StageAssets(stage), before, ClaimedIds(exts, FirstUnknown(exts)), o);
  }

  /**
   * A reference of asset `i` carries the asset's ID when the asset comes before the first
   * unknown extension, and keeps its ID fields otherwise.
   */
  lemma RewrittenIdsReferenced(stage: Sb2Object, before: map<Sb2Object, IdFields>, i: nat, o: Sb2Object)
    requires stage.children.Some? && before.Keys == ManifestObjects(stage)
    requires i < |StageAssets(stage)| && o in StageAssets(stage)[i].references
    ensures o in before
    ensures RewrittenIds(stage, before)[o] ==
              var exts := Extensions(StageAssets(stage));
              if i < FirstUnknown(exts) then Rewrite(before[o], IdFor(exts, i)) else before[o]
  {
    InputsInManifest(stage);
    var exts := Extensions(StageAssets(stage));
    AddedIdsAt(StageAssets(stage), before, ClaimedIds(exts, FirstUnknown(exts)), i, o);
  }

  /**
   * How the project settles once the assets were added: an unknown extension rejects with
   * `unknown extension: ...`, else a failed fetch rejects with that fetch's error, else the
   * result is a zip of the fetched files and the `manifest`, sorted.
   */
  predicate ArchiveSettled(id: string, assets: seq<Asset>, fetchAsset: string -> Option<Bytes>,
                           manifest: Sb2Stage, r: Result<LoadResult, Error>)
  {
    var exts := Extensions(assets);
    if FirstUnknown(exts) < |assets| then
      r == Failure(PlainError("unknown extension: " + exts[FirstUnknown(exts)]))
    else if !ArchivedUpTo(assets, |assets|, fetchAsset) then
      exists j :: 0 <= j < |assets| && fetchAsset(AssetUrl(assets[j].md5)).None?
                  && r == Failure(NetworkError(AssetUrl(assets[j].md5)))
    else
      && r.Success? && r.value.Zip? && r.value == Zip(id, "sb2", r.value.files)
      && Sorted(r.value.files)
      && multiset(r.value.files) == multiset(ArchivedFiles(assets, |assets|, fetchAsset)
                                             + [FileEntry(ProjectJsonPath, Sb2Json(manifest))])
  }

  /**
   * The end of `loadScratch2JSONProject`: a throw from `assets.map` rejects, else
   * `Promise.all` gathers the asset files, `project.json` is appended and the files sorted.
   */
  method SettleAssets(id: string, assets: seq<Asset>, fetchAsset: string -> Option<Bytes>,
                      added: Result<seq<Result<FileEntry, Error>>, Error>, manifest: Sb2Stage)
    returns (r: Result<LoadResult, Error>)
    requires FirstUnknown(Extensions(assets)) < |assets| ==>
               added == Failure(PlainError("unknown extension: " + assets[FirstUnknown(Extensions(assets))].extension))
    requires FirstUnknown(Extensions(assets)) == |assets| ==>
               added.Success? && AssetPromises(assets, fetchAsset, added.value)
    ensures ArchiveSettled(id, assets, fetchAsset, manifest, r)
  {
    if added.Failure? {
      return Failure(added.error);
    }
    var all := PromiseAll(added.value);
    GatheredAssets(assets, fetchAsset, added.value);
    if all.Failure? {
      return Failure(all.error);
    }
    var z := SortedArchive(id, "sb2", all.value + [FileEntry(ProjectJsonPath, Sb2Json(manifest))]);
    r := Success(z);
  }

  /**
   * What `loadScratch2JSONProject` does, given the ID fields `before` it ran: `children` not
   * an array is a TypeError with nothing rewritten; otherwise the IDs are rewritten and the
   * result settles as ArchiveSettled says.
   */
  ghost predicate JsonLoaded(id: string, stage: Sb2Object, fetchAsset: string -> Option<Bytes>,
                             before: map<Sb2Object, IdFields>, r: Result<LoadResult, Error>)
    requires before.Keys == ManifestObjects(stage)
    reads ManifestObjects(stage)
  {
    if stage.children.None? then
      r == Failure(TypeError(ChildrenTypeError)) && IdSnapshot(stage) == before
    else
      && IdSnapshot(stage) == RewrittenIds(stage, before)
      && ArchiveSettled(id, StageAssets(stage), fetchAsset, StageOf(stage), r)
  }

  /**
   * `loadScratch2JSONProject`: groups the assets, adds them all, then appends the rewritten
   * manifest as `project.json` and sorts the files.
   */
  method LoadScratch2JsonProject(id: string, stage: Sb2Object, fetchAsset: string -> Option<Bytes>)
    returns (r: Result<LoadResult, Error>)
    modifies ManifestObjects(stage)
    ensures JsonLoaded(id, stage, fetchAsset, old(IdSnapshot(stage)), r)
  {
    var inputs := AssetInputs(stage);
    if inputs.Failure? {
      return Failure(inputs.error);
    }
    r := ArchiveStage(id, stage, inputs.value, fetchAsset);
  }

  /** `loadScratch2JSONProject` once `children` was found to be an array. */
  method ArchiveStage(id: string, stage: Sb2Object, inputs: seq<Sb2Object>, fetchAsset: string -> Option<Bytes>)
    returns (r: Result<LoadResult, Error>)
    requires AssetInputs(stage) == Success(inputs)
    modifies ManifestObjects(stage)
    ensures IdSnapshot(stage) == RewrittenIds(stage, old(IdSnapshot(stage)))
    ensures ArchiveSettled(id, StageAssets(stage), fetchAsset, StageOf(stage), r)
  {
    ObjectsAllocated([stage] + AllChildren(stage));
    var assets, added := RewriteStage(stage, inputs, fetchAsset);
    r := SettleAssets(id, assets, fetchAsset, added, StageOf(stage));
  }

  /**
   * The part of `loadScratch2JSONProject` that changes the manifest, once `children` was found
   * to be an array: groups the assets and adds them all, rewriting the ID fields.
   */
  method RewriteStage(stage: Sb2Object, inputs: seq<Sb2Object>, fetchAsset: string -> Option<Bytes>)
    returns (assets: seq<Asset>, added: Result<seq<Result<FileEntry, Error>>, Error>)
    requires AssetInputs(stage) == Success(inputs)
    modifies ManifestObjects(stage)
    ensures assets == StageAssets(stage)
    ensures IdSnapshot(stage) == RewrittenIds(stage, old(IdSnapshot(stage)))
    ensures FirstUnknown(Extensions(assets)) < |assets| ==>
              added == Failure(PlainError("unknown extension: " + assets[FirstUnknown(Extensions(assets))].extension))
    ensures FirstUnknown(Extensions(assets)) == |assets| ==>
              added.Success? && AssetPromises(assets, fetchAsset, added.value)
  {
    ObjectsAllocated([stage] + AllChildren(stage));
    ghost var before := IdSnapshot(stage);
    InputsInManifest(stage);
    assets := ProcessAssets(inputs);
    assert assets == StageAssets(stage);
    added := AddAssets(assets, fetchAsset, before);
    SnapshotIs(stage, RewrittenIds(stage, before));
  }

  /** The body of the projects API response, as the Scratch 2 loader reads it as text. */
  datatype Sb2Body =
    | NotJson(bytes: Bytes)           // `JSON.parse` throws: a binary project
    | JsonManifest(stage: Sb2Object)  // a JSON object
    | JsonOther                       // JSON that is not an object, so it has no `children`

  /** The manifest objects a response lets the loader rewrite. */
  function ResponseObjects(response: Option<Response<Sb2Body>>): set<Sb2Object> {
    if response.Some? && response.value.body.JsonManifest? then ManifestObjects(response.value.body.stage) else {}
  }

  /** The ID fields of the manifest a response carries, if it carries one. */
  ghost function ResponseSnapshot(response: Option<Response<Sb2Body>>): (m: map<Sb2Object, IdFields>)
    reads ResponseObjects(response)
    ensures m.Keys == ResponseObjects(response)
  {
    if response.Some? && response.value.body.JsonManifest? then IdSnapshot(response.value.body.stage) else map[]
  }

  /**
   * How `loadScratch2Project` settles, given the ID fields `before` it ran: a rejected request
   * rejects, a status other than 200 rejects, a body that is not JSON settles as the binary
   * loader says, and a JSON one as the JSON loader says.
   */
  ghost predicate Sb2Loaded(id: string, response: Option<Response<Sb2Body>>, fetchAsset: string -> Option<Bytes>,
                            before: map<Sb2Object, IdFields>, r: Result<LoadResult, Error>)
    requires before.Keys == ResponseObjects(response)
    reads ResponseObjects(response)
  {
    if response.None? then r == Failure(NetworkError(ProjectApiUrl(id)))
    else if response.value.status != 200 then
      r == Failure(PlainError("Returned status code: " + NatToString(response.value.status)))
    else
      match response.value.body
      case NotJson(bytes) => Sb2BinaryLoaded(id, bytes, r)
      case JsonOther => r == Failure(TypeError(ChildrenTypeError))
      case JsonManifest(stage) => JsonLoaded(id, stage, fetchAsset, before, r)
  }

  /**
   * `loadScratch2Project`: `response` is the settled fetch of the projects API (`None` when
   * the request rejected).
   */
  method LoadScratch2Project(id: string, response: Option<Response<Sb2Body>>, fetchAsset: string -> Option<Bytes>)
    returns (r: Result<LoadResult, Error>)
    modifies ResponseObjects(response)
    ensures Sb2Loaded(id, response, fetchAsset, old(ResponseSnapshot(response)), r)
  {
    if response.None? {
      return Failure(NetworkError(ProjectApiUrl(id)));
    }
    if response.value.status != 200 {
      return Failure(PlainError("Returned status code: " + NatToString(response.value.status)));
    }
    match response.value.body
    case NotJson(bytes) =>
      r := LoadScratch2BinaryProject(id, bytes);
    case JsonOther =>
      r := Failure(TypeError(ChildrenTypeError));
    case JsonManifest(stage) =>
      r := LoadScratch2JsonProject(id, stage, fetchAsset);
  }
}
