# IODarkWatch core, modelled in Dafny

IODarkWatch watches for "dark" vessels, meaning ships that switch off their AIS
transponder. It does this by combining Sentinel-1 SAR imagery with vessel
tracks. This project models the deterministic core of the repository and proves
properties of the model:

- **Training-data pipelines** (`ml_pipeline/`):
  - decoding raw Sentinel-1 `.dat` bytes into I/Q samples and a square magnitude grid;
  - cutting images into overlapping 640×640 tiles;
  - the 80/20 train/val split and the tile file names;
  - choosing the VV/VH data files and the TIFF members to process;
  - the synthetic label files;
  - the ladders that grade data volume, tile counts and the measured mAP@0.5;
  - the survey of an archive's member names in `check_sar_files.py`.
- **The SAR fetcher** (`sar_fetcher/sar_fetcher.py`):
  - bounding-box parsing;
  - the grid of cells;
  - calendar-month ranges;
  - the cell × month task list;
  - the completeness check on the downloads.
- **The dashboard** (`app/`):
  - the dark-vessel rules and status update;
  - the Zustand vessel store;
  - the CSV export;
  - the detection panel's mapping, 20-entry buffer and counters.

Each module follows one source file, or a piece of logic shared by several.
Its entry point is either a function over
values, or a method whose loop is proved equal to a specification function.
Lemmas then prove that function's properties.

| module | file | models |
|---|---|---|
| `Text` | text.dfy | the helpers used throughout: ASCII lower-casing, substring and suffix tests, split/join, decimal rendering, `{:04d}` padding, order-preserving filters |
| `RawDecode` | raw_decode.dfy | `read_sentinel1_raw` |
| `Tiler` | tiler.dfy | `create_tiles` and `create_training_tiles` (identical code) |
| `Dataset` | dataset.dfy | the 80/20 split and the written tile records shared by both training scripts |
| `Sentinel1Pipeline` | sentinel1_pipeline.dfy | `main` of `train_sentinel1_yolov8x.py` |
| `LivePipeline` | live_pipeline.dfy | `main`, `create_training_tiles` and `create_synthetic_vessels` of `train_yolov8x_live.py` |
| `CpuReadiness` | cpu_readiness.dfy | `main` of `train_sentinel1_cpu.py` |
| `ArchiveListing` | archive_listing.dfy | `check_sentinel1_structure` of `check_sar_files.py` |
| `SarFetcher` | sar_fetcher.dfy | `parse_bbox`, `create_grid`, `get_monthly_dates`, `main` |
| `VesselTypes` | vessel_types.dfy | the `Vessel` and `Alert` records of `app/types/index.ts` |
| `DarkVessel` | dark_vessel.dfy | `app/utils/darkVesselDetection.ts` |
| `VesselStore` | vessel_store.dfy | `app/store/useVesselStore.ts` (the store is a class) |
| `CsvExport` | csv_export.dfy | `convertVesselsToCSV` |
| `DetectionFeed` | detection_feed.dfy | the detection logic of `app/components/ml/VesselDetection.tsx` (the panel is a class) |

The model follows the code as written; in particular:

- A raw file shorter than 4 bytes gives an empty 0×0 grid, not an error.
- The zero-padding branch in `read_sentinel1_raw` is unreachable.
- `updateVesselStatus` never produces `'alert'`.
- The `"annot"` exclusion is case-sensitive.
- Upper-case `.TIF` members are extracted but never processed.
- An unreadable TIFF ends the live script's preprocessing step with a failure,
  after the tiles of the earlier TIFFs have been written.
- The images ".jpg" and ".jpg.jpg" get the same label file ".jpg.txt",
  because pathlib gives both the stem ".jpg".

`app/utils/exportUtils.ts` and `darkVesselDetection.ts` import `Vessel` from
`'../types'`. That path resolves to `app/types.ts`, whose `Vessel` lacks most of
the fields these files read. The model uses the fields the code actually reads:
those of `app/types/index.ts` for the dark-vessel rules and the store, and for
the export a record whose every field may be `undefined`.

## Model

| member | source | states |
|---|---|---|
| RawDecode.Int16RoundTrip | ml_pipeline/train_sentinel1_yolov8x.py:292 | little-endian int16 decoding inverts encoding on [-32768, 32767] |
| RawDecode.Int16BytesRoundTrip | ml_pipeline/train_sentinel1_yolov8x.py:292 | every byte pair is the encoding of the word it decodes to |
| RawDecode.SamplesToRead | ml_pipeline/train_sentinel1_yolov8x.py:279-288 | samples read = min(floor(size/4), 10,000,000); never more bytes than the file has |
| RawDecode.DecodeSamplesSpec | ml_pipeline/train_sentinel1_yolov8x.py:279-298 | min(size/4, cap) samples; sample k is I = word 2k and Q = word 2k+1 from bytes 4k..4k+3, each in int16 range |
| RawDecode.DecodeReadsOnlyPrefix | ml_pipeline/train_sentinel1_yolov8x.py:285-288 | bytes after the capped prefix (and the trailing 1-3 bytes) never affect the samples |
| RawDecode.ISqrt | ml_pipeline/train_sentinel1_yolov8x.py:304-305 | s = floor(sqrt(n)): s² ≤ n < (s+1)² |
| RawDecode.ISqrtUnique | ml_pipeline/train_sentinel1_yolov8x.py:305 | any s with s² ≤ n < (s+1)² is the integer square root |
| RawDecode.ReadSentinel1RawShape | ml_pipeline/train_sentinel1_yolov8x.py:273-318 | a readable file gives an s×s grid with s the integer square root of the sample count |
| RawDecode.ReadSentinel1RawCell | ml_pipeline/train_sentinel1_yolov8x.py:301-309 | cell (r, c) is the power of sample r·s + c (row-major reshape of the first s² values) |
| RawDecode.ReadSentinel1RawFails | ml_pipeline/train_sentinel1_yolov8x.py:320-322 | the result is None exactly when the file cannot be read |
| RawDecode.PaddingBranchUnreachable | ml_pipeline/train_sentinel1_yolov8x.py:308-314 | n ≥ s², so the zero-padding branch never runs |
| RawDecode.GridExamples | ml_pipeline/train_sentinel1_yolov8x.py:304-309 | 100 samples give 10×10; 99 give 9×9 and drop 18 |
| RawDecode.FortyThousandBytes | ml_pipeline/train_sentinel1_yolov8x.py:279-309 | a 40,000-byte file gives a 100×100 grid |
| RawDecode.ShortFileEmptyGrid | ml_pipeline/train_sentinel1_yolov8x.py:279-318 | fewer than 4 bytes give a 0×0 grid, not an error |
| Tiler.CountSpec | ml_pipeline/train_sentinel1_yolov8x.py:353-354 | origin index j exists iff 576·j + 640 ≤ dimension |
| Tiler.Window | ml_pipeline/train_sentinel1_yolov8x.py:355 | a tile is a 640×640 window whose (a, b) cell is the image's (y+a, x+b) cell |
| Tiler.TilesSpec | ml_pipeline/train_sentinel1_yolov8x.py:347-360 | (⌊(h−640)/576⌋+1)·(⌊(w−640)/576⌋+1) tiles, row-major; tile i·cols+j is the window at (576i, 576j), inside the image |
| Tiler.TileCount | ml_pipeline/train_sentinel1_yolov8x.py:347-360 | the count formula, and no tiles when either side is below 640 |
| Tiler.TileCountExamples | ml_pipeline/train_sentinel1_yolov8x.py:351-354 | 1280×1280 gives 4 tiles, 100 gives none, 1216 gives 2 per side and 1215 gives 1 |
| Tiler.CreateTiles | ml_pipeline/train_sentinel1_yolov8x.py:347-360 | the nested loops append exactly `Tiles(image)`; the shape check always passes |
| Tiler.AppendRowTiles | ml_pipeline/train_sentinel1_yolov8x.py:354-358 | the inner loop appends exactly the row band's windows, left to right |
| Dataset.SplitIndex | ml_pipeline/train_sentinel1_yolov8x.py:104 | split = int(0.8·n) = ⌊4n/5⌋, characterised by 5k ≤ 4n < 5k+5 |
| Dataset.SplitExample | ml_pipeline/train_sentinel1_yolov8x.py:104 | 10 tiles split 8/2, 4 split 3/1, 1 split 0/1 |
| Dataset.SplitSavedSpec | ml_pipeline/train_sentinel1_yolov8x.py:104-118 | tile a goes to train iff a < split; it is named by its index within its half, which restarts at 0 for val |
| Dataset.SplitSavedDistinct | ml_pipeline/train_sentinel1_yolov8x.py:112-118 | with an injective naming, no two written tiles share a directory and name |
| Dataset.DistinctAppend | ml_pipeline/train_sentinel1_yolov8x.py:83-120 | two overwrite-free batches with disjoint names stay overwrite-free when concatenated |
| Dataset.WriteSplit | ml_pipeline/train_sentinel1_yolov8x.py:104-118 | the two save loops write exactly the train half then the val half, in order |
| Sentinel1Pipeline.LastMatch | ml_pipeline/train_sentinel1_yolov8x.py:65-69 | a selected name is in the list and matches |
| Sentinel1Pipeline.LastMatchSpec | ml_pipeline/train_sentinel1_yolov8x.py:65-69 | None iff nothing matches; otherwise a match with no later match (last wins) |
| Sentinel1Pipeline.SelectDataFiles | ml_pipeline/train_sentinel1_yolov8x.py:62-69 | the loop keeps the last VV match and the last VH-only match |
| Sentinel1Pipeline.VvWinsOverVh | ml_pipeline/train_sentinel1_yolov8x.py:66-69 | a name with both markers is only ever the VV file (the `elif`) |
| Sentinel1Pipeline.AnnotIsCaseSensitive | ml_pipeline/train_sentinel1_yolov8x.py:66 | "vvANNOT" qualifies as VV data; "vvannot" does not |
| Sentinel1Pipeline.TileNameInjective | ml_pipeline/train_sentinel1_yolov8x.py:112-118 | `s1_{POL}_{i:04d}.jpg` determines POL and i: VV and VH never collide |
| Sentinel1Pipeline.SavedForDistinct | ml_pipeline/train_sentinel1_yolov8x.py:112-118 | one polarisation's tiles never overwrite each other |
| Sentinel1Pipeline.PolarisationsDistinct | ml_pipeline/train_sentinel1_yolov8x.py:83-118 | the VV and VH tiles land on distinct paths |
| Sentinel1Pipeline.ProcessPolarisations | ml_pipeline/train_sentinel1_yolov8x.py:81-120 | unreadable files are skipped; total_tiles counts both halves and equals the files written |
| Sentinel1Pipeline.ProcessJob | ml_pipeline/train_sentinel1_yolov8x.py:87-120 | one polarisation writes nothing when unreadable, else its split tiles, and adds their number |
| Sentinel1Pipeline.NoTileOverwritten | ml_pipeline/train_sentinel1_yolov8x.py:81-120 | over the VV and VH runs no written file is overwritten |
| Sentinel1Pipeline.PrepareDataset | ml_pipeline/train_sentinel1_yolov8x.py:62-120 | no dataset iff the VV or VH file is missing; otherwise the written tiles, their count, and no overwrite |
| Sentinel1Pipeline.AccuracyPredictionBands | ml_pipeline/train_sentinel1_yolov8x.py:126-134 | ">98%" iff ≥2000 tiles, "95-98%" iff 1000..1999, "90-95%" below 1000 |
| Sentinel1Pipeline.TrainingOutcome | ml_pipeline/train_sentinel1_yolov8x.py:174-257 | fails iff fewer than 10 training images; ready iff mAP@0.5 ≥ 0.93, with status "ready"/"needs_improvement" and the tile-count prediction |
| Sentinel1Pipeline.ReadinessVersusVerdict | ml_pipeline/train_sentinel1_yolov8x.py:220-238 | the printed verdict and the recorded readiness use different thresholds (0.93 ≤ mAP < 0.95 is "ready" but only "GOOD"); a missing mAP reads 0.0 |
| LivePipeline.AssessDataSizeSpec | ml_pipeline/train_yolov8x_live.py:62-72 | plentiful iff ≥ 1.5 GB; then the estimate is ≥ 1500 so ">95%" always follows, and ">98%" iff ≥ 2 GB |
| LivePipeline.FilesToExtractSpec | ml_pipeline/train_yolov8x_live.py:84-89 | the first min(5, #TIFFs) TIFF members in archive order, each a case-insensitive .tif/.tiff |
| LivePipeline.UpperCaseTiffNotProcessed | ml_pipeline/train_yolov8x_live.py:84-106 | "A.TIF" is extracted but the case-sensitive rglob never finds it |
| LivePipeline.CreateTrainingTiles | ml_pipeline/train_yolov8x_live.py:421-434 | computes exactly the same tiles as `create_tiles` |
| LivePipeline.SarTileNameInjective | ml_pipeline/train_yolov8x_live.py:145-150 | `sar_{idx}_{i:04d}.jpg` determines idx and i |
| LivePipeline.FirstUnreadable | ml_pipeline/train_yolov8x_live.py:119-128 | the position of the first TIFF that cannot be opened or read, or the number of TIFFs when none |
| LivePipeline.ProcessReadable | ml_pipeline/train_yolov8x_live.py:119-153 | the loop stops at the first unreadable TIFF, having written exactly the tiles of the files before it, with total = files written |
| LivePipeline.ProcessTiffs | ml_pipeline/train_yolov8x_live.py:103-156 | no TIFF gives a failure; an unreadable TIFF gives a failure that leaves the earlier files' tiles written (the `except` at 365-367); otherwise every band-less file is skipped but keeps its index, and total = files written |
| LivePipeline.ProcessFile | ml_pipeline/train_yolov8x_live.py:123-153 | one round: nothing for a band-less file, otherwise exactly its split and named tiles and their number |
| LivePipeline.SavedLiveStep | ml_pipeline/train_yolov8x_live.py:119-153 | one loop round appends file idx's tiles and adds their count |
| LivePipeline.FileSavedNames | ml_pipeline/train_yolov8x_live.py:144-151 | every tile written for file idx is named `sar_{idx}_…` |
| LivePipeline.SavedLiveNamed | ml_pipeline/train_yolov8x_live.py:119-153 | every written name comes from a file that had a band |
| LivePipeline.SavedLiveDistinct | ml_pipeline/train_yolov8x_live.py:119-153 | no tile file is overwritten across all TIFFs |
| LivePipeline.AssessTilesBands | ml_pipeline/train_yolov8x_live.py:159-164 | excellent iff ≥2000 tiles, good iff 1000..1999, limited below |
| LivePipeline.EvaluateSpec | ml_pipeline/train_yolov8x_live.py:293-351 | record written (always ready) iff mAP ≥ 0.98; near-target iff 0.95..0.98; below that the two hints fire iff tiles < 1000 / data < 2 GB; missing mAP is below target |
| LivePipeline.Stem | ml_pipeline/train_yolov8x_live.py:452 | `Path.stem`: the stem plus ".jpg" is the image name, except for the dot-file ".jpg", whose stem is the whole name |
| LivePipeline.CreateSyntheticVessels | ml_pipeline/train_yolov8x_live.py:436-462 | one label per train image then per val image, in order |
| LivePipeline.LabelsIfScarce | ml_pipeline/train_yolov8x_live.py:230-236 | labels are written only when there are fewer than 100 training images |
| LivePipeline.LabelsForSpec | ml_pipeline/train_yolov8x_live.py:451-460 | label k is named after image k's stem, sits in its subset, holds that subset's fixed box; two images share a label only if equal or the pair ".jpg"/".jpg.jpg" |
| LivePipeline.DotJpgLabelsCollide | ml_pipeline/train_yolov8x_live.py:450-455 | ".jpg" and ".jpg.jpg" both get the label ".jpg.txt" |
| CpuReadiness.StatusForBands | ml_pipeline/train_sentinel1_cpu.py:41-49 | production iff ≥ 50 images, beta iff 20..49, demo below 20 |
| CpuReadiness.DecisionSpec | ml_pipeline/train_sentinel1_cpu.py:117-151 | ready iff mAP ≥ 0.90 (0.80..0.90 is "Decent" but not ready); grade A iff ≥ 0.95, B iff 0.90..0.95, A/B iff ready |
| CpuReadiness.RunSpec | ml_pipeline/train_sentinel1_cpu.py:22-163 | fails iff a directory is missing or < 5 training images; the record's status follows the count, readiness the mAP alone |
| CpuReadiness.StatusAndReadinessDisagree | ml_pipeline/train_sentinel1_cpu.py:41-134 | 50 images at mAP 0.5 are "production_ready" yet not ready; 5 at 0.99 are "demo_ready" yet ready |
| ArchiveListing.ExtensionHistogram | ml_pipeline/check_sar_files.py:20-24 | the loop builds exactly the dictionary `Counts(files)` |
| ArchiveListing.CountsPerKey | ml_pipeline/check_sar_files.py:20-24 | a key is present iff some dotted name has that extension, and its count is the number of such names |
| ArchiveListing.CountsKeys | ml_pipeline/check_sar_files.py:22-23 | the keys are exactly the lower-cased last-dot extensions of dotted names |
| ArchiveListing.TotalRemove | ml_pipeline/check_sar_files.py:20-24 | the sum of the counts does not depend on the order the keys are taken in |
| ArchiveListing.TotalIncrement | ml_pipeline/check_sar_files.py:24 | `get(ext, 0) + 1` raises the sum of the counts by exactly one |
| ArchiveListing.CountsTotal | ml_pipeline/check_sar_files.py:20-24 | the counts sum to the number of dotted names |
| ArchiveListing.SampleFiles | ml_pipeline/check_sar_files.py:31-36 | the first min(15, n) names; a "more" line iff n > 15, reporting n − 15; shown + more = n |
| ArchiveListing.MentionsSpec | ml_pipeline/check_sar_files.py:39-41 | a name is kept iff its lower-cased form contains the word; archive order kept; case of the name irrelevant |
| ArchiveListing.OverlappingLists | ml_pipeline/check_sar_files.py:40-41 | a name can be in both the annotation and the calibration lists |
| SarFetcher.ParseBboxSpec | sar_fetcher/sar_fetcher.py:32-38 | Ok iff exactly four comma-separated fields all parse; the box is those fields in order; else BadParameter |
| SarFetcher.ParseBboxRoundTrip | sar_fetcher/sar_fetcher.py:35-36 | joining four rendered numbers with commas parses back to the same box, with no min/max check |
| SarFetcher.RoundsStep | sar_fetcher/sar_fetcher.py:46-56 | each loop round strictly lowers the remaining count (termination for g > 0) |
| SarFetcher.AxisLength | sar_fetcher/sar_fetcher.py:45-56 | ⌈(hi−x)/g⌉ values: none iff x ≥ hi; x+(n−1)g < hi ≤ x+ng |
| SarFetcher.AxisAt | sar_fetcher/sar_fetcher.py:45-56 | the k-th value is x + k·g and lies in [x, hi) |
| SarFetcher.CreateGrid | sar_fetcher/sar_fetcher.py:40-58 | the nested loops produce exactly `Grid(b, g)` |
| SarFetcher.CellsOfAt | sar_fetcher/sar_fetcher.py:45-56 | cell i·nLat + j pairs longitude i with latitude j |
| SarFetcher.GridSpec | sar_fetcher/sar_fetcher.py:40-58 | nLon·nLat cells, longitude-major; corner (lonMin+ig, latMin+jg) inside the box; far edges clipped to the box; empty box gives none |
| SarFetcher.GetMonthlyDates | sar_fetcher/sar_fetcher.py:60-70 | the loop produces exactly `MonthsFrom(first of start's month, end)` |
| SarFetcher.MonthsFromSpec | sar_fetcher/sar_fetcher.py:63-68 | each range runs from a 1st to that month's last day, the first in the start's month, consecutive ranges abutting |
| SarFetcher.MonthsFromCount | sar_fetcher/sar_fetcher.py:65-68 | the number of ranges is `ExpectedMonths` |
| SarFetcher.GetMonthlyDatesCount | sar_fetcher/sar_fetcher.py:60-70 | month span + 1 when the end's month counts, none when the end is in an earlier month |
| SarFetcher.MonthExamples | sar_fetcher/sar_fetcher.py:63-68 | 15 Jan – 10 Mar gives 3 ranges; an end at 1 March before the start's time of day drops March |
| SarFetcher.BuildTasks | sar_fetcher/sar_fetcher.py:154-157 | the nested loops produce exactly `TasksUpTo(cells, ranges, |cells|)` |
| SarFetcher.TasksSpec | sar_fetcher/sar_fetcher.py:154-157 | task i·|ranges| + j pairs cell i with range j; |cells|·|ranges| tasks |
| SarFetcher.CollectResults | sar_fetcher/sar_fetcher.py:174-179 | keeps the non-empty results in submission order |
| SarFetcher.SuccessesComplete | sar_fetcher/sar_fetcher.py:187-191 | as many results as tasks iff every download succeeded |
| SarFetcher.RunFetcher | sar_fetcher/sar_fetcher.py:134-197 | BadParameter on a bad box; missing credentials; otherwise Ok(results) iff every task succeeded, else Incomplete(got, cells·months) |
| DarkVessel.Insert | app/utils/darkVesselDetection.ts:37 | inserting keeps every position (multiset) and adds one |
| DarkVessel.SortNewestFirst | app/utils/darkVesselDetection.ts:36-37 | the sort is a permutation |
| DarkVessel.InsertSorted | app/utils/darkVesselDetection.ts:37 | inserting into a newest-first list keeps it newest-first |
| DarkVessel.SortNewestFirstSpec | app/utils/darkVesselDetection.ts:36-37 | the sorted list is a newest-first permutation of the input |
| DarkVessel.RecentSpec | app/utils/darkVesselDetection.ts:36-38 | min(3, n) positions, newest first, none newer left out |
| DarkVessel.CheckForMovement | app/utils/darkVesselDetection.ts:82-98 | true iff some consecutive pair moved more than 0.001 in lat or lng; false below 2 positions |
| DarkVessel.MaxMinSpeedSpec | app/utils/darkVesselDetection.ts:106-107 | `Math.max`/`Math.min` of the speeds are attained bounds |
| DarkVessel.SpreadSpec | app/utils/darkVesselDetection.ts:106-112 | spread > 20 iff some two speeds differ by more than 20 knots |
| DarkVessel.CheckErraticMovement | app/utils/darkVesselDetection.ts:103-133 | true iff at least 3 positions and (spread > 20 or some leg implausible) |
| DarkVessel.ReasonsForRanked | app/utils/darkVesselDetection.ts:22-67 | reasons come in rule order, each at most once, silence first |
| DarkVessel.ReasonsForMembers | app/utils/darkVesselDetection.ts:22-67 | exactly one reason per rule that fires |
| DarkVessel.ResortedSpec | app/utils/darkVesselDetection.ts:35-37 | the in-place sort only reorders `previousPositions`, newest first |
| DarkVessel.AnalyzeSpec | app/utils/darkVesselDetection.ts:16-77 | dark iff some reason; suspicious iff rule 2 or 3; reasons ranked and one per rule; silence ≥ 12 hours |
| DarkVessel.TrackRules | app/utils/darkVesselDetection.ts:35-55 | rules 2 and 3 on the three newest positions, with the vessel re-sorted |
| DarkVessel.AnalyzeDarkVessel | app/utils/darkVesselDetection.ts:16-77 | the method computes `Analyze` and leaves the vessel re-sorted |
| DarkVessel.SameTrackActive | app/utils/darkVesselDetection.ts:58-61 | rule 4 answers the same on the re-sorted list |
| DarkVessel.NoMatchRule | app/utils/darkVesselDetection.ts:58-61 | rule 4 on the re-sorted vessel fires exactly when the vessel was previously active |
| DarkVessel.UpdateVesselStatusSpec | app/utils/darkVesselDetection.ts:152-171 | 'dark' iff dark, 'active' otherwise, never 'alert'; only status and `suspicious` change besides the sort |
| DarkVessel.ProcessVesselsSpec | app/utils/darkVesselDetection.ts:176-178 | same length and order, each vessel updated, none 'alert' |
| DarkVessel.SilenceExamples | app/utils/darkVesselDetection.ts:23-32 | 13 silent hours give one reason "13 hours"; exactly 12 give none |
| VesselStore.MergeSpec | app/store/useVesselStore.ts:87 | an empty patch changes nothing; patching twice is patching once |
| VesselStore.UpdateByIdSpec | app/store/useVesselStore.ts:85-88 | entries with the id are merged, others untouched, length kept; unknown id is a no-op; idempotent |
| VesselStore.RemoveByIdSpec | app/store/useVesselStore.ts:89-92 | keeps exactly the vessels with another id, in order; removed + kept = all; unknown id is a no-op; idempotent |
| VesselStore.RemoveAlertByIdSpec | app/store/useVesselStore.ts:94-97 | keeps exactly the alerts with another id, in order; unknown id is a no-op |
| VesselStore.FilterVesselsSpec | app/store/useVesselStore.ts:98-113 | a vessel passes iff its status and type are listed (empty list = any); order kept; dateRange ignored |
| VesselStore.MockFilterExample | app/store/useVesselStore.ts:23-82 | no filters return all mock vessels; status "dark" returns the second |
| VesselStore.Store.constructor | app/store/useVesselStore.ts:74-82 | the initial state: mock vessels and alerts, nothing selected, empty filters |
| VesselStore.Store.SetSelectedAlert | app/store/useVesselStore.ts:83 | sets the selection, nothing else |
| VesselStore.Store.AddVessel | app/store/useVesselStore.ts:84 | appends the vessel, nothing else |
| VesselStore.Store.UpdateVessel | app/store/useVesselStore.ts:85-88 | the vessels become `UpdateById`, nothing else |
| VesselStore.Store.RemoveVessel | app/store/useVesselStore.ts:89-92 | the vessels become `RemoveById`, nothing else |
| VesselStore.Store.AddAlert | app/store/useVesselStore.ts:93 | appends the alert, nothing else |
| VesselStore.Store.RemoveAlert | app/store/useVesselStore.ts:94-97 | the alerts become `RemoveAlertById`, nothing else |
| VesselStore.Store.GetFilteredVessels | app/store/useVesselStore.ts:98-113 | the vessels of the store that pass the filters |
| VesselStore.AddThenRemove | app/store/useVesselStore.ts:84-92 | removing a vessel's id right after adding it undoes the add |
| CsvExport.RowValues | app/utils/exportUtils.ts:22-36 | thirteen values per row |
| CsvExport.HeaderSpec | app/utils/exportUtils.ts:5-19 | the header splits back into the thirteen column names and is one line |
| CsvExport.RowSpec | app/utils/exportUtils.ts:22-36 | a row of plain values splits back into its thirteen values, the quoted name second, on one line |
| CsvExport.ConvertSpec | app/utils/exportUtils.ts:3-40 | throws iff some vessel has no position; otherwise n+1 lines, header then rows in order; empty list gives the header |
| CsvExport.CommaInNameShiftsColumns | app/utils/exportUtils.ts:24 | nothing is escaped: a comma in the name gives 14 comma-separated fields and shifts later values |
| DetectionFeed.CalculateVesselSizeSpec | app/components/ml/VesselDetection.tsx:132-137 | large iff area > 5000, medium iff 2000 < area ≤ 5000, small otherwise (inverted boxes are small) |
| DetectionFeed.JitterBounds | app/components/ml/VesselDetection.tsx:98-99 | demo coordinates lie within 0.05 of the centre |
| DetectionFeed.MapDetectionsSpec | app/components/ml/VesselDetection.tsx:93-108 | one detection per result, kind from `is_dark_vessel`, confidence copied, medium without a box; entry k gets id `Date.now()`+k and the ISO time, both read at entry k; under a clock that never steps back the ids strictly increase, so they are distinct |
| DetectionFeed.ClockStepBackSharesId | app/components/ml/VesselDetection.tsx:93-94 | when the clock steps back by one millisecond between two entries, they get the same id |
| DetectionFeed.WindowSpec | app/components/ml/VesselDetection.tsx:110 | the newest batch first, then the previous list, capped at 20 |
| DetectionFeed.CountedSpec | app/components/ml/VesselDetection.tsx:113-118 | total grows by the batch size, dark count by the dark-flagged results, never faster than the total; other counters unchanged |
| DetectionFeed.DarkCountMatches | app/components/ml/VesselDetection.tsx:116-117 | the dark detections of the mapped batch are as many as the dark-flagged results |
| DetectionFeed.DemoDetectionSpec | app/components/ml/VesselDetection.tsx:139-155 | confidence in [0.85, 0.99), dark iff draw > 0.7, coordinates within 0.05, each size a third of the draws |
| DetectionFeed.DemoPrependSpec | app/components/ml/VesselDetection.tsx:157 | the demo detection goes first and drops the oldest entry only when 20 are shown |
| DetectionFeed.Panel.constructor | app/components/ml/VesselDetection.tsx:31-41 | no detections, the initial counters, not analysing |
| DetectionFeed.Panel.Prepend | app/components/ml/VesselDetection.tsx:110 | the list becomes the capped window, counters unchanged, at most 20 entries |
| DetectionFeed.Panel.CreateDemoDetection | app/components/ml/VesselDetection.tsx:139-158 | one demo detection goes in front, capped at 20 |
| DetectionFeed.Panel.AnalyzeRealSarImage | app/components/ml/VesselDetection.tsx:76-130 | on success the mapped batch goes in front and the counters grow; on failure one demo detection and unchanged counters; never left analysing |
| Text.LowerIdempotent | ml_pipeline/check_sar_files.py:23 | lower-casing twice is lower-casing once |
| Text.SplitJoin | sar_fetcher/sar_fetcher.py:35 | splitting a join of separator-free pieces gives the pieces back |
| Text.JoinSplit | app/utils/exportUtils.ts:39 | joining the pieces of a split gives the text back |
| Text.NatToStringRoundTrip | ml_pipeline/train_yolov8x_live.py:145 | the decimal rendering of a number reads back as that number |
| Text.Pad4RoundTrip | ml_pipeline/train_sentinel1_yolov8x.py:113 | `{:04d}` renders at least four digits that read back as the number |
| Text.Pad4Injective | ml_pipeline/train_sentinel1_yolov8x.py:113 | distinct indices get distinct `{:04d}` renderings |
| Text.FilterAppend | ml_pipeline/check_sar_files.py:39-41 | a list-comprehension filter distributes over concatenation (keeps order) |
| Text.FilterIdempotent | app/store/useVesselStore.ts:91 | filtering twice with one test is filtering once |
| Text.FilterFilter | app/store/useVesselStore.ts:103-110 | two filters in a row are one filter on the conjunction |
| Text.FilterComplement | app/store/useVesselStore.ts:91 | the kept and the dropped elements add up to the whole list |

## Left out

- File-system, archive and network I/O (zip extraction, rasterio, `cv2.imwrite`, YAML/JSON writing, `glob`, `fetch`, Sentinel Hub downloads, `downloadCSV`'s DOM work) are parameters or lists of names. The result of a read is an `Option` value, or for the live script's TIFFs one of band, no band and unreadable.
- The dB conversion, percentile normalisation, Lee filter and CLAHE steps (`process_sar_data`, `preprocess_sar_advanced`) are the parameter `normalise`/`preprocess`: floating-point image processing.
- `np.abs` of the complex sample (a square root) is modelled as the power I² + Q²; only the grid layout is claimed, not the pixel values.
- Ultralytics training and validation, `inference_server.py` and `check_smap_files` (h5py) are foreign libraries; their metrics come in as a map.
- `create_demo_labels` and all `Math.random` use other than the detection panel's draws are randomness; the panel's draws are parameters.
- Printing (progress lines, the sorted extension report, file sizes in MB) is not modelled.
- ArchiveListing.ExtensionHistogram: Python's `str.lower` folds all of Unicode; the model folds ASCII letters only.
- RawDecode.ReadSentinel1Raw: `int(np.sqrt(n))` is taken as the exact integer square root, which double precision gives for every n up to the 10,000,000 cap.
- Dataset.SplitIndex: `int(n * 0.8)` is modelled as ⌊4n/5⌋; the double 0.8 is slightly above 4/5, so the product never rounds below that integer.
- SarFetcher.CreateGrid: coordinates are exact reals; floating-point drift of `lon += grid_size` and a grid size ≤ 0 (which never terminates on a non-empty box) are not modelled.
- SarFetcher.RunFetcher: downloads run one after another through a function parameter; the thread pool, retries, metadata CSV and the wrapping of every error into `ClickException` are not modelled.
- SarFetcher.GetMonthlyDates: dates are valid calendar dates with a time of day; `relativedelta` overflow past year 9999 is not modelled.
- DarkVessel.AnalyzeDarkVessel: the clock is one parameter `now` (`processVesselsForDarkDetection` reads it per vessel); `lastTransmissionHours` is exact real division; NaN from invalid date strings and the falsiness of an empty or zero `lastAisTransmission` are not modelled.
- DarkVessel.CheckForMovement: coordinates are exact reals, while JavaScript subtracts doubles. A difference within double rounding of 0.001 can be classified the other way: lng 103.8198 then 103.8208 differ by 0.0010000000000047748 in doubles (movement), but by exactly 0.001 in the model (no movement).
- DarkVessel.CheckErraticMovement: speeds are exact reals. A spread within double rounding of 20 knots can be classified the other way: speeds 32.2 and 12.2 differ by 20.000000000000004 in doubles (erratic), but by exactly 20 in the model.
- Sentinel1Pipeline.TrainingOutcome: mAP@0.5 is an exact real compared with exactly 0.93 (readiness) and 0.98, 0.95 and 0.90 (the printed verdict); Python compares the double metric with the nearest doubles, so a metric within rounding of a threshold may be graded the other way.
- LivePipeline.Evaluate: the same for the 0.98 and 0.95 mAP thresholds and the 2.0 GB hint.
- LivePipeline.AssessDataSize: the same for the 1.5 GB threshold; the estimate `int(total_data_size * 1000)` is an exact floor, so a size within rounding of a multiple of 1/1000 GB may land on the other side of 1000 or 2000 tiles.
- CpuReadiness.Decision: the same for the 0.98, 0.95, 0.90 and 0.80 mAP thresholds.
- DarkVessel.CheckErraticMovement: the haversine distance and knot conversion of the leg check are the parameter `implausible`.
- DarkVessel.SortNewestFirstSpec: states a newest-first permutation but not the stability of `Array.prototype.sort` on equal timestamps.
- CsvExport.ConvertSpec: values are the text JavaScript renders for them; number formatting is not modelled, and the line structure is stated for values free of commas and newlines.
- DetectionFeed.Panel.AnalyzeRealSarImage: React's state batching and the asynchronous `fetch` are collapsed into one call taking the service's answer; `Date.now()` and `new Date().toISOString()` are parameter functions of the entry index, read once per mapped entry; distinct ids are proved only for a clock that never steps back.
