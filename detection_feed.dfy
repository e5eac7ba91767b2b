/** The recent-detections panel of the dashboard
    (`app/components/ml/VesselDetection.tsx`): detections returned by the
    detection service are mapped to display entries and put in front of a
    list capped at 20, with running counters; when the service fails, one
    demo detection is shown instead. The clock and the random draws are
    parameters. */
module DetectionFeed {
  import opened Text

  datatype Kind = DarkVessel | Ship   // 'dark_vessel' | 'vessel'

  datatype Size = Small | Medium | Large

  datatype SarMetadata = SarMetadata(polarization: string, resolution: string, sensor: string)

  const Sentinel1Metadata := SarMetadata("VH", "10m", "Sentinel-1")

  datatype Detection = Detection(
    id: int,
    kind: Kind,
    confidence: real,
    lat: real,
    lng: real,
    size: Size,
    timestamp: string,
    metadata: SarMetadata)

  /** A box as the detection service reports it. */
  datatype BBox = BBox(x1: real, y1: real, x2: real, y2: real)

  /** One entry of the service's `detections` array. */
  datatype ApiDetection = ApiDetection(isDarkVessel: bool, confidence: real, bbox: Option<BBox>)

  const MaxShown: nat := 20
  const CentreLat: real := 40.7128
  const CentreLng: real := -74.0060

  // ---------------------------------------------------------------------
  // Size classes
  // ---------------------------------------------------------------------

  function Area(b: BBox): real { (b.x2 - b.x1) * (b.y2 - b.y1) }

  /** `calculateVesselSize`. */
  function CalculateVesselSize(b: BBox): Size {
    var area := Area(b);
    if area > 5000.0 then Large else if area > 2000.0 then Medium else Small
  }

  /** Large above 5000 square pixels, medium above 2000 up to 5000, small
      otherwise, which includes the negative areas of boxes whose corners
      are swapped in one direction. */
  lemma CalculateVesselSizeSpec(b: BBox)
    ensures CalculateVesselSize(b) == Large <==> Area(b) > 5000.0
    ensures CalculateVesselSize(b) == Medium <==> 2000.0 < Area(b) <= 5000.0
    ensures CalculateVesselSize(b) == Small <==> Area(b) <= 2000.0
    ensures b.x2 < b.x1 && b.y2 > b.y1 ==> CalculateVesselSize(b) == Small
  {
    if b.x2 < b.x1 && b.y2 > b.y1 {
      assert (b.x1 - b.x2) * (b.y2 - b.y1) > 0.0;
    }
  }

  // ---------------------------------------------------------------------
  // Mapping service results
  // ---------------------------------------------------------------------

  /** A demo coordinate: the centre plus (r - 0.5) * 0.1 for a draw r. */
  function Jitter(centre: real, r: real): real { centre + (r - 0.5) * 0.1 }

  /** For draws in [0, 1), demo coordinates lie within 0.05 of the centre. */
  lemma JitterBounds(centre: real, r: real)
    requires 0.0 <= r < 1.0
    ensures centre - 0.05 <= Jitter(centre, r) < centre + 0.05
  {
  }

  /** Entry `idx` of the mapped list. The callback reads the clock afresh
      for every entry: `clock(idx)` is its `Date.now()`, `iso(idx)` its
      `new Date().toISOString()`, and `draw(idx)` holds the two
      `Math.random()` results its coordinates use. */
  function ToDetection(det: ApiDetection, idx: nat, clock: nat -> int, iso: nat -> string,
                       draw: nat -> (real, real)): Detection {
    Detection(
      clock(idx) + idx,
      if det.isDarkVessel then DarkVessel else Ship,
      det.confidence,
      Jitter(CentreLat, draw(idx).0),
      Jitter(CentreLng, draw(idx).1),
      if det.bbox.Some? then CalculateVesselSize(det.bbox.value) else Medium,
      iso(idx),
      Sentinel1Metadata)
  }

  /** `result.detections.map(...)`. */
  function MapDetections(api: seq<ApiDetection>, clock: nat -> int, iso: nat -> string,
                         draw: nat -> (real, real)): seq<Detection> {
    seq(|api|, idx requires 0 <= idx < |api| => ToDetection(api[idx], idx, clock, iso, draw))
  }

  /** A clock that never runs backwards over the mapping. */
  ghost predicate NonDecreasing(clock: nat -> int) {
    forall i: nat, j: nat :: i <= j ==> clock(i) <= clock(j)
  }

  /** One entry per service detection, in service order:
      - dark exactly when the service says so;
      - the service's confidence;
      - medium when there is no box;
      - id `Date.now() + idx` and the time read for that entry.
      When the clock does not run backwards while the batch is mapped, the
      ids strictly increase along the batch and so are distinct. */
  lemma MapDetectionsSpec(api: seq<ApiDetection>, clock: nat -> int, iso: nat -> string,
                          draw: nat -> (real, real))
    ensures var m := MapDetections(api, clock, iso, draw);
      |m| == |api| &&
      (forall k :: 0 <= k < |m| ==>
        (m[k].kind == DarkVessel <==> api[k].isDarkVessel) &&
        m[k].confidence == api[k].confidence &&
        (api[k].bbox.None? ==> m[k].size == Medium) &&
        m[k].id == clock(k) + k && m[k].timestamp == iso(k))
    ensures NonDecreasing(clock) ==>
      var m := MapDetections(api, clock, iso, draw);
      (forall i, j :: 0 <= i < j < |m| ==> m[i].id < m[j].id) &&
      (forall i, j :: 0 <= i < |m| && 0 <= j < |m| && m[i].id == m[j].id ==> i == j)
  {
    var m := MapDetections(api, clock, iso, draw);
    if NonDecreasing(clock) {
      forall i, j | 0 <= i < j < |m|
        ensures m[i].id < m[j].id
      {
        assert clock(i) <= clock(j);
      }
    }
  }

  /** With a clock that steps back by a millisecond between two entries,
      for instance when the system time is corrected, the two entries share
      an id. */
  lemma ClockStepBackSharesId(a: ApiDetection, b: ApiDetection, iso: nat -> string, draw: nat -> (real, real))
    ensures var clock := (i: nat) => if i == 0 then 1000 else 999;
      var m := MapDetections([a, b], clock, iso, draw);
      m[0].id == m[1].id == 1000
  {
  }

  // ---------------------------------------------------------------------
  // The capped list and the counters
  // ---------------------------------------------------------------------

  /** `[...incoming, ...prev].slice(0, 20)`. */
  function Window(incoming: seq<Detection>, prev: seq<Detection>): seq<Detection> {
    var all := incoming + prev;
    all[..Min(MaxShown, |all|)]
  }

  /** The list never grows past 20; the incoming entries come first in their
      own order, then the previous list from its start, so only the oldest
      entries beyond 20 are dropped, and nothing is dropped while there is
      room. */
  lemma WindowSpec(incoming: seq<Detection>, prev: seq<Detection>)
    ensures |Window(incoming, prev)| == Min(MaxShown, |incoming| + |prev|)
    ensures forall k :: 0 <= k < |Window(incoming, prev)| && k < |incoming| ==> Window(incoming, prev)[k] == incoming[k]
    ensures forall k :: |incoming| <= k < |Window(incoming, prev)| ==> Window(incoming, prev)[k] == prev[k - |incoming|]
    ensures |incoming| + |prev| <= MaxShown ==> Window(incoming, prev) == incoming + prev
  {
  }

  function CountDark(ds: seq<Detection>): nat {
    |Filter(ds, (d: Detection) => d.kind == DarkVessel)|
  }

  /** The panel's counters. */
  datatype Metrics = Metrics(
    avgProcessingTime: int,
    totalDetections: int,
    accuracyToday: real,
    uptime: real,
    darkVesselsDetected: int,
    alertsGenerated: int)

  const InitialMetrics := Metrics(245, 1247, 96.8, 99.2, 23, 8)

  /** The counters after a batch: total and dark counts grow by the batch's
      size and its number of dark entries; nothing else changes. */
  function Counted(m: Metrics, batch: seq<Detection>): Metrics {
    m.(totalDetections := m.totalDetections + |batch|,
       darkVesselsDetected := m.darkVesselsDetected + CountDark(batch))
  }

  /** The dark count never grows faster than the total; the counts of a
      mapped batch are its size and the number of dark-flagged service
      detections. */
  lemma CountedSpec(m: Metrics, api: seq<ApiDetection>, clock: nat -> int, iso: nat -> string,
                    draw: nat -> (real, real))
    ensures var batch := MapDetections(api, clock, iso, draw);
      var c := Counted(m, batch);
      c.totalDetections - m.totalDetections == |api| &&
      0 <= c.darkVesselsDetected - m.darkVesselsDetected <= c.totalDetections - m.totalDetections &&
      c.darkVesselsDetected - m.darkVesselsDetected == |Filter(api, (a: ApiDetection) => a.isDarkVessel)| &&
      c.(totalDetections := m.totalDetections, darkVesselsDetected := m.darkVesselsDetected) == m
  {
    var batch := MapDetections(api, clock, iso, draw);
    DarkCountMatches(api, clock, iso, draw, |api|);
    assert api[..|api|] == api;
    assert batch[..|api|] == batch;
  }

  lemma {:induction false} DarkCountMatches(api: seq<ApiDetection>, clock: nat -> int, iso: nat -> string,
                                             draw: nat -> (real, real), n: nat)
    requires n <= |api|
    ensures |Filter(MapDetections(api, clock, iso, draw)[..n], (d: Detection) => d.kind == DarkVessel)| ==
            |Filter(api[..n], (a: ApiDetection) => a.isDarkVessel)|
  {
    if n > 0 {
      var batch := MapDetections(api, clock, iso, draw);
      DarkCountMatches(api, clock, iso, draw, n - 1);
      assert batch[..n][..n - 1] == batch[..n - 1];
      assert api[..n][..n - 1] == api[..n - 1];
    }
  }

  // ---------------------------------------------------------------------
  // Demo detections
  // ---------------------------------------------------------------------

  /** The five `Math.random()` results a demo detection uses. */
  datatype DemoDraw = DemoDraw(kind: real, confidence: real, lat: real, lng: real, size: real)

  predicate UnitDraws(d: DemoDraw) {
    0.0 <= d.kind < 1.0 && 0.0 <= d.confidence < 1.0 && 0.0 <= d.lat < 1.0 &&
    0.0 <= d.lng < 1.0 && 0.0 <= d.size < 1.0
  }

  /** `['small', 'medium', 'large'][Math.floor(r * 3)]`. */
  function SizeFromDraw(r: real): Size {
    var i := (r * 3.0).Floor;
    if i <= 0 then Small else if i == 1 then Medium else Large
  }

  /** `createDemoDetection`'s entry. */
  function DemoDetection(now: int, iso: string, d: DemoDraw): Detection {
    Detection(
      now,
      if d.kind > 0.7 then DarkVessel else Ship,
      0.85 + d.confidence * 0.14,
      Jitter(CentreLat, d.lat),
      Jitter(CentreLng, d.lng),
      SizeFromDraw(d.size),
      iso,
      Sentinel1Metadata)
  }

  /** With draws in [0, 1): confidence in [0.85, 0.99), dark for draws above
      0.7 (30% of them), coordinates within 0.05 of the centre, and each size
      for a third of the draws. */
  lemma DemoDetectionSpec(now: int, iso: string, d: DemoDraw)
    requires UnitDraws(d)
    ensures var x := DemoDetection(now, iso, d);
      0.85 <= x.confidence < 0.99 &&
      (x.kind == DarkVessel <==> d.kind > 0.7) &&
      CentreLat - 0.05 <= x.lat < CentreLat + 0.05 &&
      CentreLng - 0.05 <= x.lng < CentreLng + 0.05 &&
      (x.size == Small <==> d.size < 1.0 / 3.0) &&
      (x.size == Large <==> d.size >= 2.0 / 3.0)
  {
    JitterBounds(CentreLat, d.lat);
    JitterBounds(CentreLng, d.lng);
    var i := (d.size * 3.0).Floor;
    assert i as real <= d.size * 3.0 < i as real + 1.0;
  }

  // ---------------------------------------------------------------------
  // The panel's state
  // ---------------------------------------------------------------------

  /** The service's answer: `None` when the request fails, the status is not
      ok, or the body cannot be read. */
  type Response = Option<seq<ApiDetection>>

  class Panel {
    var detections: seq<Detection>
    var metrics: Metrics
    var isAnalyzing: bool

    /** The list never holds more than 20 entries. */
    predicate Valid()
      reads this
    {
      |detections| <= MaxShown
    }

    constructor()
      ensures Valid()
      ensures detections == [] && metrics == InitialMetrics && !isAnalyzing
    {
      detections := [];
      metrics := InitialMetrics;
      isAnalyzing := false;
    }

    /** `setDetections(prev => [...incoming, ...prev].slice(0, 20))`. */
    method Prepend(incoming: seq<Detection>)
      modifies this
      ensures detections == Window(incoming, old(detections))
      ensures metrics == old(metrics) && isAnalyzing == old(isAnalyzing)
      ensures Valid()
    {
      detections := Window(incoming, detections);
    }

    /** `createDemoDetection`. */
    method CreateDemoDetection(now: int, iso: string, draw: DemoDraw)
      modifies this
      ensures detections == Window([DemoDetection(now, iso, draw)], old(detections))
      ensures metrics == old(metrics) && isAnalyzing == old(isAnalyzing)
      ensures Valid()
    {
      Prepend([DemoDetection(now, iso, draw)]);
    }

    /** `analyzeRealSarImage` once the service has answered: on success the
        mapped batch goes in front and the counters grow; on failure one
        demo detection, made at `demoNow`/`demoIso`, goes in front and the
        counters stay. Either way the panel ends not analysing. */
    method AnalyzeRealSarImage(response: Response, clock: nat -> int, iso: nat -> string,
                               draw: nat -> (real, real), demoNow: int, demoIso: string, demo: DemoDraw)
      modifies this
      ensures Valid()
      ensures !isAnalyzing
      ensures response.Some? ==>
        var batch := MapDetections(response.value, clock, iso, draw);
        detections == Window(batch, old(detections)) && metrics == Counted(old(metrics), batch)
      ensures response.None? ==>
        detections == Window([DemoDetection(demoNow, demoIso, demo)], old(detections)) && metrics == old(metrics)
    {
      isAnalyzing := true;
      if response.Some? {
        var newDetections := MapDetections(response.value, clock, iso, draw);
        Prepend(newDetections);
        metrics := Counted(metrics, newDetections);
      } else {
        CreateDemoDetection(demoNow, demoIso, demo);
      }
      isAnalyzing := false;
    }
  }

  /** On failure exactly one entry is added at the front and, at the cap,
      exactly the oldest entry leaves. */
  lemma DemoPrependSpec(x: Detection, prev: seq<Detection>)
    requires |prev| <= MaxShown
    ensures Window([x], prev)[0] == x
    ensures |prev| < MaxShown ==> Window([x], prev) == [x] + prev
    ensures |prev| == MaxShown ==> Window([x], prev) == [x] + prev[..MaxShown - 1]
  {
  }
}
