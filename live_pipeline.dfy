/** The driver of the live YOLOv8x training script (`main` in
    `train_yolov8x_live.py`) without its file system, rasterio and training
    library: which archive members are extracted, how each extracted TIFF
    becomes named train and val tiles, the synthetic label files written
    when training data is scarce, and the ladders that grade the data volume,
    the tile count and the measured mAP@0.5. */
module LivePipeline {
  import opened Text
  import Tiler
  import opened Dataset

  // ---------------------------------------------------------------------
  // Data volume
  // ---------------------------------------------------------------------

  datatype DataAdequacy =
    | Plenty(expectedTiles: int, sufficientFor95: bool, excellentFor98: bool)
    | MayNeedAugmentation

  /** The adequacy assessment over the total size of the data files in GB:
      at 1.5 GB or more, an estimate of 1000 tiles per GB (`int(...)`) and
      the two sufficiency lines it unlocks. */
  function AssessDataSize(totalDataGb: real): DataAdequacy
    requires totalDataGb >= 0.0
  {
    if totalDataGb >= 1.5 then
      var expected := (totalDataGb * 1000.0).Floor;
      Plenty(expected, expected >= 1000, expected >= 2000)
    else MayNeedAugmentation
  }

  /** Once the volume counts as plentiful the ">95%" line always follows (the
      estimate is at least 1500), and the ">98%" line follows exactly from
      2 GB on. */
  lemma AssessDataSizeSpec(totalDataGb: real)
    requires totalDataGb >= 0.0
    ensures AssessDataSize(totalDataGb).Plenty? <==> totalDataGb >= 1.5
    ensures AssessDataSize(totalDataGb).Plenty? ==>
      AssessDataSize(totalDataGb).expectedTiles >= 1500 &&
      AssessDataSize(totalDataGb).sufficientFor95 &&
      (AssessDataSize(totalDataGb).excellentFor98 <==> totalDataGb >= 2.0)
  {
    if totalDataGb >= 1.5 {
      var x := totalDataGb * 1000.0;
      assert x >= 1500.0;
      assert x.Floor >= 1500 by { FloorAtLeast(x, 1500); }
      if totalDataGb >= 2.0 {
        assert x.Floor >= 2000 by { FloorAtLeast(x, 2000); }
      } else {
        assert x < 2000.0;
      }
    }
  }

  lemma FloorAtLeast(x: real, n: int)
    requires x >= n as real
    ensures x.Floor >= n
  {
  }

  // ---------------------------------------------------------------------
  // Archive members
  // ---------------------------------------------------------------------

  /** `f.lower().endswith(('.tif', '.tiff'))`. */
  predicate IsTiff(name: string) {
    EndsWith(Lower(name), ".tif") || EndsWith(Lower(name), ".tiff")
  }

  /** The TIFF members, in archive order. */
  function SelectTiffs(names: seq<string>): seq<string> {
    Filter(names, IsTiff)
  }

  /** `tiff_files[:5] if len(tiff_files) > 5 else tiff_files`. */
  function FilesToExtract(names: seq<string>): seq<string> {
    var tiffs := SelectTiffs(names);
    tiffs[..Min(5, |tiffs|)]
  }

  /** At most five members are extracted, all of them TIFFs, and they are
      the first five TIFFs of the archive. */
  lemma FilesToExtractSpec(names: seq<string>)
    ensures |FilesToExtract(names)| == Min(5, |SelectTiffs(names)|)
    ensures FilesToExtract(names) <= SelectTiffs(names)
    ensures forall x :: x in FilesToExtract(names) ==> x in names && IsTiff(x)
  {
    var tiffs := SelectTiffs(names);
    forall x | x in FilesToExtract(names)
      ensures x in tiffs
    {
      var k :| 0 <= k < |FilesToExtract(names)| && FilesToExtract(names)[k] == x;
      assert tiffs[k] == x;
    }
  }

  /** The files processed afterwards are those found by `rglob("*.tif")`
      followed by those found by `rglob("*.tiff")`, and those patterns are
      case-sensitive on a POSIX file system. */
  function GlobTiffs(extracted: seq<string>): seq<string> {
    Filter(extracted, (n: string) => EndsWith(n, ".tif")) + Filter(extracted, (n: string) => EndsWith(n, ".tiff"))
  }

  /** An upper-case `.TIF` member is extracted but never found again for
      processing. */
  lemma UpperCaseTiffNotProcessed()
    ensures IsTiff("A.TIF")
    ensures FilesToExtract(["A.TIF"]) == ["A.TIF"]
    ensures GlobTiffs(["A.TIF"]) == []
  {
    assert Lower("A.TIF") == "a.tif";
    assert EndsWith(Lower("A.TIF"), ".tif");
    assert !EndsWith("A.TIF", ".tif") by { assert "A.TIF"[2] != ".tif"[1]; }
    assert !EndsWith("A.TIF", ".tiff") by { assert "A.TIF"[0] != ".tiff"[0]; }
    assert ["A.TIF"][..0] == [];
  }

  // ---------------------------------------------------------------------
  // Tiles per file
  // ---------------------------------------------------------------------

  /** `create_training_tiles`: the very same tiling as the raw script's
      `create_tiles`. */
  method CreateTrainingTiles(image: Image) returns (tiles: seq<Tiler.Grid<Pixel>>)
    ensures tiles == Tiler.Tiles(image)
  {
    tiles := Tiler.CreateTiles(image);
  }

  /** `f"sar_{idx}_{i:04d}.jpg"`. */
  function SarTileName(idx: nat, i: nat): string {
    "sar_" + NatToString(idx) + "_" + Pad4(i) + ".jpg"
  }

  function SarNames(idx: nat): nat -> string {
    (i: nat) => SarTileName(idx, i)
  }

  /** A name determines the file index and the tile index: the decimal file
      index contains no `_`, so the separator after it is found at the same
      place in both names. */
  lemma SarTileNameInjective(idx1: nat, i1: nat, idx2: nat, i2: nat)
    requires SarTileName(idx1, i1) == SarTileName(idx2, i2)
    ensures idx1 == idx2 && i1 == i2
  {
    var a, b := NatToString(idx1), NatToString(idx2);
    var n := SarTileName(idx1, i1);
    if |a| < |b| {
      SeparatorAt(idx1, i1);
      IndexDigitAt(idx2, i2, |a|);
      assert false;
    } else if |b| < |a| {
      SeparatorAt(idx2, i2);
      IndexDigitAt(idx1, i1, |b|);
      assert false;
    }
    NameParts(idx1, i1);
    NameParts(idx2, i2);
    NatToStringInjective(idx1, idx2);
    Pad4Injective(i1, i2);
  }

  /** Where the file index and the padded tile index sit in a name. */
  lemma NameParts(idx: nat, i: nat)
    ensures var n, a := SarTileName(idx, i), NatToString(idx);
      5 + |a| <= |n| - 4 && n[4..4 + |a|] == a && n[5 + |a|..|n| - 4] == Pad4(i)
  {
  }

  /** The `_` after the file index. */
  lemma SeparatorAt(idx: nat, i: nat)
    ensures 4 + |NatToString(idx)| < |SarTileName(idx, i)|
    ensures SarTileName(idx, i)[4 + |NatToString(idx)|] == '_'
  {
  }

  /** The digits of the file index. */
  lemma IndexDigitAt(idx: nat, i: nat, k: nat)
    requires k < |NatToString(idx)|
    ensures 4 + k < |SarTileName(idx, i)|
    ensures IsDigit(SarTileName(idx, i)[4 + k])
  {
    assert SarTileName(idx, i)[4 + k] == NatToString(idx)[k];
  }

  /** What opening one extracted TIFF gives:
      - `Band`: its first band;
      - `NoBand`: no band at all (`src.count < 1`), and the file is skipped;
      - `Unreadable`: `rasterio.open`, `src.read` or the preprocessing raised,
        and the surrounding `except Exception` ends step 3 with a failure. */
  datatype TiffRead = Band(band: Tiler.Grid<real>) | NoBand | Unreadable

  /** The tiles of one file: none unless it has a band. */
  function FileTiles(file: TiffRead, preprocess: Tiler.Grid<real> -> Image): seq<Tiler.Grid<Pixel>> {
    match file
    case Band(band) => Tiler.Tiles(preprocess(band))
    case _ => []
  }

  function FileSaved(idx: nat, file: TiffRead, preprocess: Tiler.Grid<real> -> Image): seq<SavedTile> {
    SplitSaved(FileTiles(file, preprocess), SarNames(idx))
  }

  /** Everything written for the files. File `idx` is named by its position
      in the list, whether or not earlier files were skipped. */
  function SavedLive(files: seq<TiffRead>, preprocess: Tiler.Grid<real> -> Image): seq<SavedTile> {
    if files == [] then []
    else SavedLive(files[..|files| - 1], preprocess) + FileSaved(|files| - 1, files[|files| - 1], preprocess)
  }

  /** The running `total_tiles`. */
  function TotalLive(files: seq<TiffRead>, preprocess: Tiler.Grid<real> -> Image): nat {
    if files == [] then 0
    else TotalLive(files[..|files| - 1], preprocess) + |FileTiles(files[|files| - 1], preprocess)|
  }

  /** The position of the first unreadable file, or the number of files when
      all of them can be read. */
  function FirstUnreadable(files: seq<TiffRead>): (k: nat)
    ensures k <= |files|
    ensures k < |files| ==> files[k].Unreadable?
    ensures forall j :: 0 <= j < k ==> !files[j].Unreadable?
  {
    if files == [] || files[0].Unreadable? then 0
    else
      var k := 1 + FirstUnreadable(files[1..]);
      assert forall j :: 1 <= j < k ==> files[j] == files[1..][j - 1];
      k
  }

  /** How step 3 ends. `Failed` carries the tiles already on disk when the
      exception struck. */
  datatype StepThree =
    | NoTiffs
    | Failed(written: seq<SavedTile>)
    | Processed(saved: seq<SavedTile>, totalTiles: nat)

  /** Step 3 of `main`:
      - fail when no TIFF was found;
      - for each file with a band, preprocess it (a parameter here), tile
        it, split it and write the tiles as `sar_{idx}_{i:04d}.jpg`, adding
        their number to the total;
      - skip a file without a band;
      - stop with a failure at the first unreadable file. The tiles of the
        files before it stay written. */
  method ProcessTiffs(files: seq<TiffRead>, preprocess: Tiler.Grid<real> -> Image)
    returns (r: StepThree)
    ensures r.NoTiffs? <==> files == []
    ensures r.Failed? <==> files != [] && FirstUnreadable(files) < |files|
    ensures r.Failed? ==> r.written == SavedLive(files[..FirstUnreadable(files)], preprocess)
    ensures r.Processed? ==> r.saved == SavedLive(files, preprocess) &&
                             r.totalTiles == TotalLive(files, preprocess) == |r.saved|
  {
    if files == [] {
      return NoTiffs;
    }
    var saved, totalTiles, stop := ProcessReadable(files, preprocess);
    if stop < |files| {
      r := Failed(saved);
    } else {
      assert files[..stop] == files;
      r := Processed(saved, totalTiles);
    }
  }

  /** The loop over the files, up to the first unreadable one (or the end):
      what it wrote and counted, and where it stopped. */
  method ProcessReadable(files: seq<TiffRead>, preprocess: Tiler.Grid<real> -> Image)
    returns (saved: seq<SavedTile>, totalTiles: nat, stop: nat)
    ensures stop == FirstUnreadable(files)
    ensures saved == SavedLive(files[..stop], preprocess)
    ensures totalTiles == TotalLive(files[..stop], preprocess) == |saved|
  {
    saved, totalTiles, stop := [], 0, 0;
    while stop < |files| && !files[stop].Unreadable?
      invariant stop <= FirstUnreadable(files)
      invariant saved == SavedLive(files[..stop], preprocess)
      invariant totalTiles == TotalLive(files[..stop], preprocess) == |saved|
    {
      FirstUnreadablePast(files, stop);
      SavedLiveStep(files, stop, preprocess);
      var written, count := ProcessFile(stop, files[stop], preprocess);
      saved := saved + written;
      totalTiles := totalTiles + count;
      stop := stop + 1;
    }
    FirstUnreadableHere(files, stop);
  }

  /** A readable file at or before the first unreadable one lies before it. */
  lemma FirstUnreadablePast(files: seq<TiffRead>, i: nat)
    requires i < |files| && i <= FirstUnreadable(files) && !files[i].Unreadable?
    ensures i < FirstUnreadable(files)
  {
  }

  /** A position no later than the first unreadable file, holding an
      unreadable file or the end of the list, is the first unreadable one. */
  lemma FirstUnreadableHere(files: seq<TiffRead>, i: nat)
    requires i <= |files| && i <= FirstUnreadable(files)
    requires i < |files| ==> files[i].Unreadable?
    ensures FirstUnreadable(files) == i
  {
  }

  /** One round of the loop for a file that can be read: nothing for a file
      without a band, otherwise its preprocessed, tiled and split tiles. */
  method ProcessFile(idx: nat, file: TiffRead, preprocess: Tiler.Grid<real> -> Image)
    returns (written: seq<SavedTile>, count: nat)
    requires !file.Unreadable?
    ensures written == FileSaved(idx, file, preprocess)
    ensures count == |FileTiles(file, preprocess)| == |written|
  {
    if file.NoBand? {
      return [], 0;
    }
    var processed := preprocess(file.band);
    var tiles := CreateTrainingTiles(processed);
    written := WriteSplit(tiles, SarNames(idx));
    count := |tiles|;
  }

  lemma SavedLiveStep(files: seq<TiffRead>, idx: nat, preprocess: Tiler.Grid<real> -> Image)
    requires idx < |files|
    ensures SavedLive(files[..idx + 1], preprocess) ==
            SavedLive(files[..idx], preprocess) + FileSaved(idx, files[idx], preprocess)
    ensures TotalLive(files[..idx + 1], preprocess) ==
            TotalLive(files[..idx], preprocess) + |FileTiles(files[idx], preprocess)|
  {
    assert files[..idx + 1][..idx] == files[..idx];
  }

  /** `name` is `sar_{idx}_{i:04d}.jpg` for some tile index i. */
  ghost predicate IsSarName(name: string, idx: nat) {
    exists i: nat :: name == SarTileName(idx, i)
  }

  /** Every saved name carries the index of a file that has a band. */
  ghost predicate NamedFromFiles(s: seq<SavedTile>, files: seq<TiffRead>) {
    forall a :: 0 <= a < |s| ==> FromSomeFile(s[a].name, files)
  }

  ghost predicate FromSomeFile(name: string, files: seq<TiffRead>) {
    exists idx: nat :: idx < |files| && files[idx].Band? && IsSarName(name, idx)
  }

  lemma FileSavedNames(idx: nat, file: TiffRead, preprocess: Tiler.Grid<real> -> Image, b: nat)
    requires b < |FileSaved(idx, file, preprocess)|
    ensures file.Band?
    ensures IsSarName(FileSaved(idx, file, preprocess)[b].name, idx)
  {
    var t := FileTiles(file, preprocess);
    SplitSavedSpec(t, SarNames(idx), b);
    var k := SplitIndex(|t|);
    var i: nat := if b < k then b else b - k;
    assert FileSaved(idx, file, preprocess)[b].name == SarTileName(idx, i);
  }

  lemma FileSavedAllNamed(idx: nat, file: TiffRead, preprocess: Tiler.Grid<real> -> Image)
    ensures forall b :: 0 <= b < |FileSaved(idx, file, preprocess)| ==>
      file.Band? && IsSarName(FileSaved(idx, file, preprocess)[b].name, idx)
  {
    var saved := FileSaved(idx, file, preprocess);
    forall b | 0 <= b < |saved|
      ensures file.Band? && IsSarName(saved[b].name, idx)
    {
      FileSavedNames(idx, file, preprocess, b);
    }
  }

  lemma FileSavedDistinct(idx: nat, file: TiffRead, preprocess: Tiler.Grid<real> -> Image)
    ensures DistinctPaths(FileSaved(idx, file, preprocess))
  {
    var t := FileTiles(file, preprocess);
    forall i: nat, j: nat | i < |t| && j < |t| && SarNames(idx)(i) == SarNames(idx)(j)
      ensures i == j
    {
      SarTileNameInjective(idx, i, idx, j);
    }
    SplitSavedDistinct(t, SarNames(idx));
  }

  /** Every name carries the list position of a file that had a band: a
      skipped file still uses up its index. */
  lemma {:induction false} SavedLiveNamed(files: seq<TiffRead>, preprocess: Tiler.Grid<real> -> Image)
    ensures NamedFromFiles(SavedLive(files, preprocess), files)
  {
    if files != [] {
      var n := |files| - 1;
      SavedLiveNamed(files[..n], preprocess);
      FileSavedAllNamed(n, files[n], preprocess);
      NamedExtend(SavedLive(files[..n], preprocess), FileSaved(n, files[n], preprocess), files, n);
      SavedLiveStep(files, n, preprocess);
      assert files[..n + 1] == files;
    }
  }

  lemma NamedExtend(s1: seq<SavedTile>, s2: seq<SavedTile>, files: seq<TiffRead>, n: nat)
    requires n + 1 == |files|
    requires NamedFromFiles(s1, files[..n])
    requires forall b :: 0 <= b < |s2| ==> files[n].Band? && IsSarName(s2[b].name, n)
    ensures NamedFromFiles(s1 + s2, files)
  {
    var s := s1 + s2;
    forall a | 0 <= a < |s|
      ensures FromSomeFile(s[a].name, files)
    {
      if a < |s1| {
        assert FromSomeFile(s1[a].name, files[..n]);
        var idx: nat :| idx < n && files[..n][idx].Band? && IsSarName(s1[a].name, idx);
        assert s[a] == s1[a];
        assert files[idx].Band? && IsSarName(s[a].name, idx);
      } else {
        assert s[a] == s2[a - |s1|];
        assert files[n].Band? && IsSarName(s[a].name, n);
      }
    }
  }

  /** The tiles of earlier files and those of file `n` never share a name. */
  lemma NamesDisjoint(init: seq<TiffRead>, n: nat, file: TiffRead, preprocess: Tiler.Grid<real> -> Image)
    requires n == |init|
    ensures var s1, s2 := SavedLive(init, preprocess), FileSaved(n, file, preprocess);
      forall a, b :: 0 <= a < |s1| && 0 <= b < |s2| ==> s1[a].name != s2[b].name
  {
    SavedLiveNamed(init, preprocess);
    var s1, s2 := SavedLive(init, preprocess), FileSaved(n, file, preprocess);
    forall a, b | 0 <= a < |s1| && 0 <= b < |s2|
      ensures s1[a].name != s2[b].name
    {
      assert FromSomeFile(s1[a].name, init);
      var idx: nat :| idx < |init| && init[idx].Band? && IsSarName(s1[a].name, idx);
      var i: nat :| s1[a].name == SarTileName(idx, i);
      FileSavedNames(n, file, preprocess, b);
      var j: nat :| s2[b].name == SarTileName(n, j);
      if s1[a].name == s2[b].name {
        SarTileNameInjective(idx, i, n, j);
      }
    }
  }

  /** Over all files no written tile overwrites another. This holds as well
      for the tiles left on disk by a failed run, which are the tiles of a
      prefix of the files. */
  lemma {:induction false} SavedLiveDistinct(files: seq<TiffRead>, preprocess: Tiler.Grid<real> -> Image)
    ensures DistinctPaths(SavedLive(files, preprocess))
  {
    if files != [] {
      var n := |files| - 1;
      var init := files[..n];
      SavedLiveDistinct(init, preprocess);
      var s1 := SavedLive(init, preprocess);
      var s2 := FileSaved(n, files[n], preprocess);
      SavedLiveStep(files, n, preprocess);
      assert files[..n + 1] == files;
      FileSavedDistinct(n, files[n], preprocess);
      NamesDisjoint(init, n, files[n], preprocess);
      DistinctAppend(s1, s2);
    }
  }

  // ---------------------------------------------------------------------
  // Grading
  // ---------------------------------------------------------------------

  datatype TileAdequacy = ExcellentTiles | GoodTiles | LimitedTiles

  /** The tile-count ladder. */
  function AssessTiles(totalTiles: nat): TileAdequacy {
    if totalTiles >= 2000 then ExcellentTiles
    else if totalTiles >= 1000 then GoodTiles
    else LimitedTiles
  }

  lemma AssessTilesBands(t: nat)
    ensures AssessTiles(t) == ExcellentTiles <==> t >= 2000
    ensures AssessTiles(t) == GoodTiles <==> 1000 <= t < 2000
    ensures AssessTiles(t) == LimitedTiles <==> t < 1000
  {
  }

  /** The contents of `deployment_config.json`, without the model path. */
  datatype LiveDeployment = LiveDeployment(
    mAP50: real,
    mAP50To95: real,
    precision: real,
    recall: real,
    totalDataGb: real,
    totalTiles: nat,
    trainImages: nat,
    valImages: nat,
    deploymentReady: bool,
    confidenceThreshold: real,
    nmsThreshold: real)

  datatype Outcome =
    | Deployed(config: LiveDeployment)
    | NearTarget
    | BelowTarget(addSarData: bool, addSmapFiles: bool)

  const AccuracyThreshold: real := 0.98

  /** The evaluation ladder after training. */
  function Evaluate(metrics: map<string, real>, totalDataGb: real, totalTiles: nat,
                    trainImages: nat, valImages: nat): Outcome
  {
    var map50 := Metric(metrics, MapKey);
    if map50 >= AccuracyThreshold then
      Deployed(LiveDeployment(map50, Metric(metrics, "metrics/mAP50-95(B)"),
                              Metric(metrics, "metrics/precision(B)"), Metric(metrics, "metrics/recall(B)"),
                              totalDataGb, totalTiles, trainImages, valImages, true, 0.25, 0.45))
    else if map50 >= 0.95 then NearTarget
    else BelowTarget(totalTiles < 1000, totalDataGb < 2.0)
  }

  /** The deployment record is written exactly when mAP@0.5 reaches 0.98 and
      then always says ready; the two hints appear only below 0.95, each
      exactly under its own condition; missing metrics count as 0.0. */
  lemma EvaluateSpec(metrics: map<string, real>, totalDataGb: real, totalTiles: nat,
                     trainImages: nat, valImages: nat)
    ensures var o := Evaluate(metrics, totalDataGb, totalTiles, trainImages, valImages);
      var map50 := Metric(metrics, MapKey);
      (o.Deployed? <==> map50 >= 0.98) &&
      (o.Deployed? ==> o.config.deploymentReady && o.config.mAP50 == map50 &&
                       o.config.totalTiles == totalTiles && o.config.trainImages == trainImages) &&
      (o.NearTarget? <==> 0.95 <= map50 < 0.98) &&
      (o.BelowTarget? <==> map50 < 0.95) &&
      (o.BelowTarget? ==> (o.addSarData <==> totalTiles < 1000) && (o.addSmapFiles <==> totalDataGb < 2.0))
    ensures MapKey !in metrics ==> Evaluate(metrics, totalDataGb, totalTiles, trainImages, valImages).BelowTarget?
  {
  }

  // ---------------------------------------------------------------------
  // Synthetic labels
  // ---------------------------------------------------------------------

  /** A label file written to `labels/train` or `labels/val`. */
  datatype LabelFile = LabelFile(subset: Subset, name: string, content: string)

  const TrainLabel: string := "1 0.5 0.5 0.1 0.1\n"
  const ValLabel: string := "1 0.3 0.3 0.08 0.08\n"

  function LabelLine(subset: Subset): string {
    match subset
    case Train => TrainLabel
    case Val => ValLabel
  }

  /** The images found by `glob("*.jpg")`. */
  predicate AllJpg(images: seq<string>) {
    forall k :: 0 <= k < |images| ==> EndsWith(images[k], ".jpg")
  }

  /** `Path.stem` of a `.jpg` name: the name without its suffix. pathlib
      gives the dot-file name ".jpg" no suffix, so its stem is the whole
      name. */
  function Stem(image: string): (stem: string)
    requires EndsWith(image, ".jpg")
    ensures |image| > 4 ==> stem + ".jpg" == image
    ensures |image| == 4 ==> stem == image == ".jpg"
  {
    if |image| == 4 then image else image[..|image| - 4]
  }

  function LabelsFor(subset: Subset, images: seq<string>): (r: seq<LabelFile>)
    requires AllJpg(images)
    ensures |r| == |images|
  {
    seq(|images|, k requires 0 <= k < |images| => LabelFile(subset, Stem(images[k]) + ".txt", LabelLine(subset)))
  }

  /** `create_synthetic_vessels`: one label file per image, named after the
      image's stem, holding the subset's fixed box. */
  method CreateSyntheticVessels(trainImages: seq<string>, valImages: seq<string>)
    returns (labels: seq<LabelFile>)
    requires AllJpg(trainImages) && AllJpg(valImages)
    ensures labels == LabelsFor(Train, trainImages) + LabelsFor(Val, valImages)
  {
    labels := [];
    for k := 0 to |trainImages|
      invariant labels == LabelsFor(Train, trainImages)[..k]
    {
      labels := labels + [LabelFile(Train, Stem(trainImages[k]) + ".txt", TrainLabel)];
      PrefixStep(LabelsFor(Train, trainImages), k);
    }
    assert LabelsFor(Train, trainImages)[..|trainImages|] == LabelsFor(Train, trainImages);
    for k := 0 to |valImages|
      invariant labels == LabelsFor(Train, trainImages) + LabelsFor(Val, valImages)[..k]
    {
      labels := labels + [LabelFile(Val, Stem(valImages[k]) + ".txt", ValLabel)];
      PrefixStep(LabelsFor(Val, valImages), k);
    }
    assert LabelsFor(Val, valImages)[..|valImages|] == LabelsFor(Val, valImages);
  }

  /** The gate in `main`: labels are made only for fewer than 100 training
      images. */
  method LabelsIfScarce(trainImages: seq<string>, valImages: seq<string>)
    returns (labels: seq<LabelFile>)
    requires AllJpg(trainImages) && AllJpg(valImages)
    ensures labels == if |trainImages| < 100 then LabelsFor(Train, trainImages) + LabelsFor(Val, valImages) else []
  {
    if |trainImages| < 100 {
      labels := CreateSyntheticVessels(trainImages, valImages);
    } else {
      labels := [];
    }
  }

  /** Label k belongs to image k:
      - it sits in the image's subset and holds that subset's fixed line;
      - its name is the image's stem with `.txt`;
      - two images of a subset share a label file only when they are the
        same image, or the pair ".jpg" and ".jpg.jpg", whose stems pathlib
        makes equal. */
  lemma LabelsForSpec(subset: Subset, images: seq<string>, k: nat, m: nat)
    requires AllJpg(images) && k < |images| && m < |images|
    ensures LabelsFor(subset, images)[k].subset == subset
    ensures LabelsFor(subset, images)[k].content == (if subset == Train then "1 0.5 0.5 0.1 0.1\n" else "1 0.3 0.3 0.08 0.08\n")
    ensures |images[k]| > 4 ==>
      LabelsFor(subset, images)[k].name[..|LabelsFor(subset, images)[k].name| - 4] + ".jpg" == images[k]
    ensures |images[k]| == 4 ==> LabelsFor(subset, images)[k].name == ".jpg.txt"
    ensures LabelsFor(subset, images)[k].name == LabelsFor(subset, images)[m].name ==>
      images[k] == images[m] ||
      (images[k] == ".jpg" && images[m] == ".jpg.jpg") || (images[k] == ".jpg.jpg" && images[m] == ".jpg")
  {
    var sk, sm := Stem(images[k]), Stem(images[m]);
    var nk, nm := sk + ".txt", sm + ".txt";
    assert nk[..|nk| - 4] == sk;
    if nk == nm {
      assert sk == nk[..|nk| - 4] == nm[..|nm| - 4] == sm;
    }
  }

  /** The two images ".jpg" and ".jpg.jpg" get the same label file, so the
      second label written overwrites the first. */
  lemma DotJpgLabelsCollide()
    ensures EndsWith(".jpg", ".jpg") && EndsWith(".jpg.jpg", ".jpg")
    ensures Stem(".jpg") + ".txt" == Stem(".jpg.jpg") + ".txt" == ".jpg.txt"
  {
    assert ".jpg.jpg"[..4] == ".jpg";
  }
}
