/** The YOLO image folders both training scripts fill: tiles of the
    normalised 8-bit image, split by position into `images/train` (the first
    `int(n * 0.8)`) and `images/val` (the rest), each subset numbered from 0
    by a per-script naming scheme. */
module Dataset {
  import Tiler

  /** An 8-bit pixel of the normalised image. */
  type Pixel = p: int | 0 <= p < 256

  /** A normalised image: rectangular, as every numpy array is. */
  type Image = g: Tiler.Grid<Pixel> | Tiler.IsRect(g) witness []

  datatype Subset = Train | Val

  /** A tile written to `images/train` or `images/val` under `name`. */
  datatype SavedTile = SavedTile(subset: Subset, name: string, tile: Tiler.Grid<Pixel>)

  /** `int(n * 0.8)`, computed exactly: the binary double nearest 0.8 lies
      above 4/5, so the product never falls below an integer it should
      reach. */
  function SplitIndex(n: nat): (k: nat)
    ensures k <= n
    ensures 5 * k <= 4 * n < 5 * k + 5
  {
    4 * n / 5
  }

  /** Ten tiles: eight for training, two for validation. */
  lemma SplitExample()
    ensures SplitIndex(10) == 8 && SplitIndex(4) == 3 && SplitIndex(1) == 0
  {
  }

  /** One subset's tiles, numbered from 0 by `name`. */
  function Entries(subset: Subset, name: nat -> string, tiles: seq<Tiler.Grid<Pixel>>): (s: seq<SavedTile>)
    ensures |s| == |tiles|
    ensures forall i :: 0 <= i < |tiles| ==> s[i] == SavedTile(subset, name(i), tiles[i])
  {
    seq(|tiles|, i requires 0 <= i < |tiles| => SavedTile(subset, name(i), tiles[i]))
  }

  /** The tiles of one image as written: train tiles first, val tiles after. */
  function SplitSaved(tiles: seq<Tiler.Grid<Pixel>>, name: nat -> string): (s: seq<SavedTile>)
    ensures |s| == |tiles|
  {
    var k := SplitIndex(|tiles|);
    Entries(Train, name, tiles[..k]) + Entries(Val, name, tiles[k..])
  }

  /** The positional 80/20 split: the first floor(4n/5) tiles go to train and
      the rest to val, in order, each tile exactly once, the numbering
      restarting at 0 in val. */
  lemma SplitSavedSpec(tiles: seq<Tiler.Grid<Pixel>>, name: nat -> string, a: nat)
    requires a < |tiles|
    ensures SplitSaved(tiles, name)[a].tile == tiles[a]
    ensures SplitSaved(tiles, name)[a].subset == Train <==> a < SplitIndex(|tiles|)
    ensures SplitSaved(tiles, name)[a].name ==
      name(if a < SplitIndex(|tiles|) then a else a - SplitIndex(|tiles|))
  {
  }

  /** No two saved tiles share a directory and file name, so no tile written
      is overwritten by a later one. */
  predicate DistinctPaths(s: seq<SavedTile>) {
    forall a, b :: 0 <= a < b < |s| ==> s[a].subset != s[b].subset || s[a].name != s[b].name
  }

  /** With a naming scheme that never reuses a name for another index, one
      image's tiles land on distinct paths. */
  lemma SplitSavedDistinct(tiles: seq<Tiler.Grid<Pixel>>, name: nat -> string)
    requires forall i: nat, j: nat :: i < |tiles| && j < |tiles| && name(i) == name(j) ==> i == j
    ensures DistinctPaths(SplitSaved(tiles, name))
  {
    var s := SplitSaved(tiles, name);
    var k := SplitIndex(|tiles|);
    forall a, b | 0 <= a < b < |s| && s[a].subset == s[b].subset
      ensures s[a].name != s[b].name
    {
      SplitSavedSpec(tiles, name, a);
      SplitSavedSpec(tiles, name, b);
    }
  }

  /** Two lists of paths stay distinct when joined, provided no name of the
      first appears in the second. */
  lemma DistinctAppend(s1: seq<SavedTile>, s2: seq<SavedTile>)
    requires DistinctPaths(s1) && DistinctPaths(s2)
    requires forall a, b :: 0 <= a < |s1| && 0 <= b < |s2| ==> s1[a].name != s2[b].name
    ensures DistinctPaths(s1 + s2)
  {
    var s := s1 + s2;
    forall a, b | 0 <= a < b < |s|
      ensures s[a].subset != s[b].subset || s[a].name != s[b].name
    {
      if b < |s1| {
        assert s[a] == s1[a] && s[b] == s1[b];
      } else if a < |s1| {
        assert s[a] == s1[a] && s[b] == s2[b - |s1|];
      } else {
        assert s[a] == s2[a - |s1|] && s[b] == s2[b - |s1|];
      }
    }
  }

  lemma PrefixStep<T>(s: seq<T>, i: nat)
    requires i < |s|
    ensures s[..i + 1] == s[..i] + [s[i]]
  {
  }

  /** The two save loops of one image: the first `int(n*0.8)` tiles into
      train, the rest into val, each loop numbering from 0. */
  method WriteSplit(tiles: seq<Tiler.Grid<Pixel>>, name: nat -> string) returns (written: seq<SavedTile>)
    ensures written == SplitSaved(tiles, name)
  {
    var splitIdx := SplitIndex(|tiles|);
    ghost var train := Entries(Train, name, tiles[..splitIdx]);
    ghost var val := Entries(Val, name, tiles[splitIdx..]);
    written := [];
    for i := 0 to splitIdx
      invariant written == train[..i]
    {
      written := written + [SavedTile(Train, name(i), tiles[i])];
      PrefixStep(train, i);
    }
    assert train[..splitIdx] == train;
    for i := 0 to |tiles| - splitIdx
      invariant written == train + val[..i]
    {
      written := written + [SavedTile(Val, name(i), tiles[splitIdx + i])];
      PrefixStep(val, i);
    }
    assert val[..|tiles| - splitIdx] == val;
  }

  /** `metrics.get(key, 0.0)` on the validation results dictionary. */
  function Metric(metrics: map<string, real>, key: string): real {
    if key in metrics then metrics[key] else 0.0
  }

  const MapKey: string := "metrics/mAP50(B)"
}
