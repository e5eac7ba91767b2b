/** The driver of the Sentinel-1 raw training script (`main` in
    `train_sentinel1_yolov8x.py`) without its file system and training
    library: choosing the VV and VH data files among the `.dat` names,
    turning each into tiles, splitting them 80/20 into train and val by
    position, naming them `s1_{POL}_{i:04d}.jpg`, counting them, and grading
    the tile count and the measured mAP@0.5. */
module Sentinel1Pipeline {
  import opened Text
  import RawDecode
  import Tiler
  import opened Dataset

  datatype Pol = VV | VH {
    function Name(): string {
      match this
      case VV => "VV"
      case VH => "VH"
    }
  }

  // ---------------------------------------------------------------------
  // Choosing the VV and VH files
  // ---------------------------------------------------------------------

  /** "vv" anywhere in the lower-cased name, and no "annot" in the name as
      written (this second test is case-sensitive). */
  predicate IsVvData(name: string) {
    Contains(Lower(name), "vv") && !Contains(name, "annot")
  }

  predicate IsVhData(name: string) {
    Contains(Lower(name), "vh") && !Contains(name, "annot")
  }

  /** The `elif`: a name that qualifies as VV is never taken as VH. */
  predicate IsVhOnly(name: string) {
    !IsVvData(name) && IsVhData(name)
  }

  /** The last name satisfying `p`, or `None` when none does. */
  function LastMatch(names: seq<string>, p: string -> bool): (sel: Option<string>)
    ensures sel.Some? ==> sel.value in names && p(sel.value)
  {
    if names == [] then None
    else if p(names[|names| - 1]) then Some(names[|names| - 1])
    else LastMatch(names[..|names| - 1], p)
  }

  /** `LastMatch` is `None` exactly when nothing matches, and otherwise a
      matching name after which no name matches. */
  lemma {:induction false} LastMatchSpec(names: seq<string>, p: string -> bool)
    ensures LastMatch(names, p).None? <==> forall i :: 0 <= i < |names| ==> !p(names[i])
    ensures LastMatch(names, p).Some? ==>
      exists i :: 0 <= i < |names| && names[i] == LastMatch(names, p).value &&
                  forall j :: i < j < |names| ==> !p(names[j])
  {
    if names != [] && !p(names[|names| - 1]) {
      var init := names[..|names| - 1];
      LastMatchSpec(init, p);
      if LastMatch(init, p).Some? {
        var i :| 0 <= i < |init| && init[i] == LastMatch(init, p).value &&
                 forall j :: i < j < |init| ==> !p(init[j]);
        assert names[i] == LastMatch(names, p).value;
      }
    }
  }

  /** The selection loop: every later match overwrites an earlier one. */
  method SelectDataFiles(names: seq<string>) returns (vv: Option<string>, vh: Option<string>)
    ensures vv == LastMatch(names, IsVvData)
    ensures vh == LastMatch(names, IsVhOnly)
  {
    vv, vh := None, None;
    for k := 0 to |names|
      invariant vv == LastMatch(names[..k], IsVvData)
      invariant vh == LastMatch(names[..k], IsVhOnly)
    {
      assert names[..k + 1][..k] == names[..k];
      var name := names[k];
      if IsVvData(name) {
        vv := Some(name);
      } else if IsVhData(name) {
        vh := Some(name);
      }
    }
    assert names[..|names|] == names;
  }

  /** A name holding both markers is only ever the VV file. */
  lemma VvWinsOverVh(name: string)
    requires Contains(Lower(name), "vv") && Contains(Lower(name), "vh") && !Contains(name, "annot")
    ensures IsVvData(name) && !IsVhOnly(name)
  {
  }

  /** "annot" excludes a file only in lower case: "ANNOT" does not. */
  lemma AnnotIsCaseSensitive()
    ensures IsVvData("vvANNOT")
    ensures !IsVvData("vvannot")
  {
    var up := "vvANNOT";
    assert Lower(up)[0] == 'v' && Lower(up)[1] == 'v';
    assert "vv" <= Lower(up)[0..];
    assert "annot" <= "vvannot"[2..];
    assert !Contains(up, "annot") by {
      forall i | 0 <= i <= |up| - 5
        ensures !("annot" <= up[i..])
      {
        assert up[i] != 'a';
      }
    }
  }

  // ---------------------------------------------------------------------
  // Split and names
  // ---------------------------------------------------------------------

  /** `f"s1_{polarization}_{i:04d}.jpg"`. */
  function TileName(pol: Pol, i: nat): string {
    "s1_" + pol.Name() + "_" + Pad4(i) + ".jpg"
  }

  /** A tile name determines its polarisation and index: VV and VH never
      collide, and indices within one polarisation never collide. */
  lemma TileNameInjective(p: Pol, i: nat, q: Pol, j: nat)
    requires TileName(p, i) == TileName(q, j)
    ensures p == q && i == j
  {
    var a, b := TileName(p, i), TileName(q, j);
    assert a[4] == p.Name()[1] && b[4] == q.Name()[1];
    assert p == q;
    var n := |a|;
    assert a[6..n - 4] == Pad4(i);
    assert b[6..n - 4] == Pad4(j);
    Pad4Injective(i, j);
  }

  /** The naming scheme of one polarisation, as a function of the index. */
  function NameOf(pol: Pol): nat -> string {
    (i: nat) => TileName(pol, i)
  }

  /** The tiles of one polarisation as written. */
  function SavedFor(pol: Pol, tiles: seq<Tiler.Grid<Pixel>>): (s: seq<SavedTile>)
    ensures |s| == |tiles|
  {
    SplitSaved(tiles, NameOf(pol))
  }

  lemma SavedForDistinct(pol: Pol, tiles: seq<Tiler.Grid<Pixel>>)
    ensures DistinctPaths(SavedFor(pol, tiles))
  {
    forall i: nat, j: nat | i < |tiles| && j < |tiles| && NameOf(pol)(i) == NameOf(pol)(j)
      ensures i == j
    {
      TileNameInjective(pol, i, pol, j);
    }
    SplitSavedDistinct(tiles, NameOf(pol));
  }

  // ---------------------------------------------------------------------
  // The per-polarisation loop of `main`
  // ---------------------------------------------------------------------

  /** What one polarisation contributes: nothing when its file cannot be
      read, otherwise its tiles as written. */
  function SavedJob(pol: Pol, file: Option<seq<RawDecode.Byte>>,
                    normalise: RawDecode.Grid -> Image): seq<SavedTile>
  {
    SavedFor(pol, TilesOf(file, normalise))
  }

  /** The tiles of one polarisation's file: none when it cannot be read. */
  function TilesOf(file: Option<seq<RawDecode.Byte>>,
                   normalise: RawDecode.Grid -> Image): seq<Tiler.Grid<Pixel>>
  {
    match RawDecode.ReadSentinel1Raw(file)
    case None => []
    case Some(grid) => Tiler.Tiles(normalise(grid))
  }

  function SavedAll(jobs: seq<(Pol, Option<seq<RawDecode.Byte>>)>,
                    normalise: RawDecode.Grid -> Image): seq<SavedTile>
  {
    if jobs == [] then []
    else SavedAll(jobs[..|jobs| - 1], normalise) + SavedJob(jobs[|jobs| - 1].0, jobs[|jobs| - 1].1, normalise)
  }

  /** The running `total_tiles`: every tile of every readable file, train
      and val alike. */
  function TotalTiles(jobs: seq<(Pol, Option<seq<RawDecode.Byte>>)>,
                      normalise: RawDecode.Grid -> Image): nat
  {
    if jobs == [] then 0
    else TotalTiles(jobs[..|jobs| - 1], normalise) + |SavedJob(jobs[|jobs| - 1].0, jobs[|jobs| - 1].1, normalise)|
  }

  /** The conversion loop of `main`: read each polarisation's file (skipping
      it when reading fails), normalise it (the dB, percentile and CLAHE
      steps, a parameter here), tile it, split it, write the tiles and add
      their number to the total. */
  method ProcessPolarisations(jobs: seq<(Pol, Option<seq<RawDecode.Byte>>)>,
                              normalise: RawDecode.Grid -> Image)
    returns (saved: seq<SavedTile>, totalTiles: nat)
    ensures saved == SavedAll(jobs, normalise)
    ensures totalTiles == TotalTiles(jobs, normalise) == |saved|
  {
    saved, totalTiles := [], 0;
    for n := 0 to |jobs|
      invariant saved == SavedAll(jobs[..n], normalise)
      invariant totalTiles == TotalTiles(jobs[..n], normalise) == |saved|
    {
      assert jobs[..n + 1][..n] == jobs[..n];
      var (pol, file) := jobs[n];
      var written, count := ProcessJob(pol, file, normalise);
      saved := saved + written;
      totalTiles := totalTiles + count;
    }
    assert jobs[..|jobs|] == jobs;
  }

  /** One round of the conversion loop: nothing when the file cannot be
      read, otherwise its tiles written under the polarisation's names and
      their number. */
  method ProcessJob(pol: Pol, file: Option<seq<RawDecode.Byte>>, normalise: RawDecode.Grid -> Image)
    returns (written: seq<SavedTile>, count: nat)
    ensures written == SavedJob(pol, file, normalise) && count == |written|
  {
    var sarData := RawDecode.ReadSentinel1Raw(file);
    if sarData.None? {
      return [], 0;
    }
    var processed := normalise(sarData.value);
    var tiles := Tiler.CreateTiles(processed);
    written := WriteSplit(tiles, NameOf(pol));
    count := |tiles|;
  }

  /** Over the VV and VH runs of `main`, no written file is overwritten:
      paths are distinct within each polarisation and across the two. */
  lemma NoTileOverwritten(vv: Option<seq<RawDecode.Byte>>, vh: Option<seq<RawDecode.Byte>>,
                          normalise: RawDecode.Grid -> Image)
    ensures DistinctPaths(SavedAll([(VV, vv), (VH, vh)], normalise))
  {
    SavedAllTwo((VV, vv), (VH, vh), normalise);
    PolarisationsDistinct(TilesOf(vv, normalise), TilesOf(vh, normalise));
  }

  lemma SavedAllOne(j: (Pol, Option<seq<RawDecode.Byte>>), normalise: RawDecode.Grid -> Image)
    ensures SavedAll([j], normalise) == SavedJob(j.0, j.1, normalise)
  {
    assert [j][..0] == [];
  }

  lemma SavedAllTwoStep(j1: (Pol, Option<seq<RawDecode.Byte>>), j2: (Pol, Option<seq<RawDecode.Byte>>),
                        normalise: RawDecode.Grid -> Image)
    ensures SavedAll([j1, j2], normalise) == SavedAll([j1], normalise) + SavedJob(j2.0, j2.1, normalise)
  {
    assert [j1, j2][..1] == [j1];
  }

  lemma SavedAllTwo(j1: (Pol, Option<seq<RawDecode.Byte>>), j2: (Pol, Option<seq<RawDecode.Byte>>),
                    normalise: RawDecode.Grid -> Image)
    ensures SavedAll([j1, j2], normalise) == SavedJob(j1.0, j1.1, normalise) + SavedJob(j2.0, j2.1, normalise)
  {
    SavedAllTwoStep(j1, j2, normalise);
    SavedAllOne(j1, normalise);
  }

  /** The VV tiles and the VH tiles land on distinct paths. */
  lemma PolarisationsDistinct(t1: seq<Tiler.Grid<Pixel>>, t2: seq<Tiler.Grid<Pixel>>)
    ensures DistinctPaths(SavedFor(VV, t1) + SavedFor(VH, t2))
  {
    var s1, s2 := SavedFor(VV, t1), SavedFor(VH, t2);
    SavedForDistinct(VV, t1);
    SavedForDistinct(VH, t2);
    forall a, b | 0 <= a < |s1| && 0 <= b < |s2|
      ensures s1[a].name != s2[b].name
    {
      SplitSavedSpec(t1, NameOf(VV), a);
      SplitSavedSpec(t2, NameOf(VH), b);
      var k1, k2 := SplitIndex(|t1|), SplitIndex(|t2|);
      if s1[a].name == s2[b].name {
        TileNameInjective(VV, if a < k1 then a else a - k1, VH, if b < k2 then b else b - k2);
      }
    }
    DistinctAppend(s1, s2);
  }

  /** Choosing the files and converting them, as `main` does before the YAML
      and training steps: no result when either polarisation's file is
      missing among the `.dat` names. */
  method PrepareDataset(datNames: seq<string>,
                        readFile: string -> Option<seq<RawDecode.Byte>>,
                        normalise: RawDecode.Grid -> Image)
    returns (r: Option<(seq<SavedTile>, nat)>)
    ensures r.None? <==> LastMatch(datNames, IsVvData).None? || LastMatch(datNames, IsVhOnly).None?
    ensures r.Some? ==>
      var files := [(VV, readFile(LastMatch(datNames, IsVvData).value)),
                    (VH, readFile(LastMatch(datNames, IsVhOnly).value))];
      r.value.0 == SavedAll(files, normalise) && r.value.1 == |r.value.0| && DistinctPaths(r.value.0)
  {
    var vvFile, vhFile := SelectDataFiles(datNames);
    if vvFile.None? || vhFile.None? {
      return None;
    }
    var saved, total := ProcessPolarisations([(VV, readFile(vvFile.value)), (VH, readFile(vhFile.value))], normalise);
    NoTileOverwritten(readFile(vvFile.value), readFile(vhFile.value), normalise);
    r := Some((saved, total));
  }

  // ---------------------------------------------------------------------
  // Grading
  // ---------------------------------------------------------------------

  /** The expected-accuracy ladder over the total tile count. */
  function AccuracyPrediction(totalTiles: nat): string {
    if totalTiles >= 2000 then ">98%"
    else if totalTiles >= 1000 then "95-98%"
    else "90-95%"
  }

  /** The ladder's three bands and their boundaries. */
  lemma AccuracyPredictionBands(t: nat)
    ensures AccuracyPrediction(t) == ">98%" <==> t >= 2000
    ensures AccuracyPrediction(t) == "95-98%" <==> 1000 <= t < 2000
    ensures AccuracyPrediction(t) == "90-95%" <==> t < 1000
  {
  }

  /** The production threshold on mAP@0.5. */
  const ReadyThreshold: real := 0.93

  datatype Verdict = Success | Excellent | Good | NeedsImprovement

  /** The printed verdict ladder. */
  function VerdictFor(map50: real): Verdict {
    if map50 >= 0.98 then Success
    else if map50 >= 0.95 then Excellent
    else if map50 >= 0.90 then Good
    else NeedsImprovement
  }

  datatype DeploymentConfig = DeploymentConfig(
    mAP50: real,
    prediction: string,
    totalTiles: nat,
    trainImages: nat,
    valImages: nat,
    polarizations: seq<string>,
    deploymentReady: bool,
    confidenceThreshold: real,
    productionStatus: string)

  /** The post-training part of `main`: fail when fewer than 10 training
      images exist, otherwise the deployment record. */
  function TrainingOutcome(totalTiles: nat, trainImages: nat, valImages: nat,
                           metrics: map<string, real>): (r: Option<DeploymentConfig>)
    ensures r.None? <==> trainImages < 10
    ensures r.Some? ==>
      r.value.deploymentReady == (Metric(metrics, MapKey) >= ReadyThreshold) &&
      r.value.productionStatus == (if r.value.deploymentReady then "ready" else "needs_improvement") &&
      r.value.prediction == AccuracyPrediction(totalTiles) &&
      r.value.totalTiles == totalTiles
  {
    if trainImages < 10 then None
    else
      var map50 := Metric(metrics, MapKey);
      var ready := map50 >= ReadyThreshold;
      Some(DeploymentConfig(map50, AccuracyPrediction(totalTiles), totalTiles, trainImages, valImages,
                            ["VV", "VH"], ready, 0.25, if ready then "ready" else "needs_improvement"))
  }

  /** The record's readiness and the printed verdict use different
      thresholds: between 0.93 and 0.95 the model is recorded as ready while
      the verdict only suggests a beta deployment, and a missing mAP reads as
      0.0 (not ready). */
  lemma ReadinessVersusVerdict(map50: real)
    ensures VerdictFor(map50) in {Success, Excellent} ==> map50 >= ReadyThreshold
    ensures 0.93 <= map50 < 0.95 ==> VerdictFor(map50) == Good && map50 >= ReadyThreshold
    ensures 0.90 <= map50 < 0.93 ==> VerdictFor(map50) == Good && map50 < ReadyThreshold
    ensures Metric(map[], MapKey) == 0.0 && VerdictFor(Metric(map[], MapKey)) == NeedsImprovement
  {
  }
}
