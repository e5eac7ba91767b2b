/** The request planner of the Sentinel Hub downloader (`sar_fetcher.py`):
    parsing the bounding box option, cutting the box into grid cells,
    enumerating the calendar months between two dates, pairing every cell
    with every month, and deciding whether the run is complete. The
    downloads themselves are a parameter. Coordinates are exact reals here;
    Python's binary floating point, whose repeated `+= grid_size` can drift,
    is not modelled. */
module SarFetcher {
  import opened Text

  // ---------------------------------------------------------------------
  // Bounding box
  // ---------------------------------------------------------------------

  datatype Bbox = Bbox(lonMin: real, latMin: real, lonMax: real, latMax: real)

  datatype FetchError =
    | BadParameter
    | MissingCredentials
    | Incomplete(downloaded: nat, expected: nat)

  datatype Result<T> = Ok(value: T) | Err(error: FetchError)

  /** Every field parses as a float. */
  predicate AllParse(fields: seq<string>, toFloat: string -> Option<real>) {
    forall k :: 0 <= k < |fields| ==> toFloat(fields[k]).Some?
  }

  /** `parse_bbox`: split on ',', convert each field with Python's `float`
      (a parameter here), and unpack exactly four values in the order
      lon_min, lat_min, lon_max, lat_max; any failure is `BadParameter`. */
  function ParseBbox(s: string, toFloat: string -> Option<real>): Result<Bbox> {
    var fields := Split(s, ',');
    if |fields| == 4 && AllParse(fields, toFloat) then
      Ok(Bbox(toFloat(fields[0]).value, toFloat(fields[1]).value,
              toFloat(fields[2]).value, toFloat(fields[3]).value))
    else Err(BadParameter)
  }

  /** The parse succeeds exactly on four numeric fields, and the box's
      corners are those fields in order, whatever their relative sizes. */
  lemma ParseBboxSpec(s: string, toFloat: string -> Option<real>)
    ensures ParseBbox(s, toFloat).Ok? <==> |Split(s, ',')| == 4 && AllParse(Split(s, ','), toFloat)
    ensures ParseBbox(s, toFloat).Err? ==> ParseBbox(s, toFloat).error == BadParameter
    ensures ParseBbox(s, toFloat).Ok? ==>
      var f := Split(s, ',');
      ParseBbox(s, toFloat).value ==
        Bbox(toFloat(f[0]).value, toFloat(f[1]).value, toFloat(f[2]).value, toFloat(f[3]).value)
  {
  }

  /** Rendering four comma-free numbers and parsing them back gives the
      same box, with no ordering check: a box with min > max parses too. */
  lemma ParseBboxRoundTrip(a: string, b: string, c: string, d: string, box: Bbox,
                           toFloat: string -> Option<real>)
    requires ',' !in a && ',' !in b && ',' !in c && ',' !in d
    requires toFloat(a) == Some(box.lonMin) && toFloat(b) == Some(box.latMin)
    requires toFloat(c) == Some(box.lonMax) && toFloat(d) == Some(box.latMax)
    ensures ParseBbox(Join([a, b, c, d], ','), toFloat) == Ok(box)
  {
    SplitJoin([a, b, c, d], ',');
  }

  // ---------------------------------------------------------------------
  // Grid cells
  // ---------------------------------------------------------------------

  /** The number of loop rounds left from `x`: ceil((hi - x) / g) when
      x < hi, else 0. */
  function Rounds(x: real, hi: real, g: real): nat
    requires g > 0.0
  {
    if x < hi then ((hi - x) / g).Floor + 1 else 0
  }

  lemma RoundsStep(x: real, hi: real, g: real)
    requires g > 0.0 && x < hi
    ensures Rounds(x + g, hi, g) < Rounds(x, hi, g)
  {
    var r := (hi - x) / g;
    var r' := (hi - (x + g)) / g;
    assert r * g == hi - x;
    assert r' * g == hi - (x + g);
    var d := r - r' - 1.0;
    assert d * g == 0.0;
    if d > 0.0 {
      MulPositive(d, g);
      assert false;
    } else if d < 0.0 {
      MulPositive(-d, g);
      assert false;
    }
    assert r' == r - 1.0;
    assert (r - 1.0).Floor == r.Floor - 1;
  }

  lemma MulPositive(a: real, b: real)
    requires a > 0.0 && b > 0.0
    ensures a * b > 0.0
  {
  }

  /** The values `v` takes in `v = x; while v < hi: ...; v += g`. */
  function Axis(x: real, hi: real, g: real): seq<real>
    requires g > 0.0
    decreases Rounds(x, hi, g)
  {
    if x < hi then RoundsStep(x, hi, g); [x] + Axis(x + g, hi, g) else []
  }

  /** Their number n is ceil((hi - x) / g): x + (n-1)*g < hi <= x + n*g,
      and n = 0 exactly when x >= hi. */
  lemma {:induction false} AxisLength(x: real, hi: real, g: real)
    requires g > 0.0
    ensures var n := |Axis(x, hi, g)|;
      (n == 0 <==> x >= hi) &&
      (n > 0 ==> x + (n - 1) as real * g < hi <= x + n as real * g)
    decreases Rounds(x, hi, g)
  {
    if x < hi {
      RoundsStep(x, hi, g);
      AxisLength(x + g, hi, g);
      var m := |Axis(x + g, hi, g)|;
      assert |Axis(x, hi, g)| == m + 1;
      if m > 0 {
        assert x + g + (m - 1) as real * g == x + m as real * g;
        assert x + g + m as real * g == x + (m + 1) as real * g;
      }
    }
  }

  /** The k-th value is x + k*g, and every value lies in [x, hi). */
  lemma {:induction false} AxisAt(x: real, hi: real, g: real, k: nat)
    requires g > 0.0 && k < |Axis(x, hi, g)|
    ensures Axis(x, hi, g)[k] == x + k as real * g
    ensures x <= Axis(x, hi, g)[k] < hi
    decreases Rounds(x, hi, g)
  {
    RoundsStep(x, hi, g);
    if k > 0 {
      AxisAt(x + g, hi, g, k - 1);
      assert Axis(x, hi, g)[k] == Axis(x + g, hi, g)[k - 1];
      assert x + g + (k - 1) as real * g == x + k as real * g;
    }
  }

  type Cell = (real, real, real, real)

  /** The cell at (lon, lat): its corner, and its far edges clipped to the
      box. */
  function CellAt(b: Bbox, g: real, lon: real, lat: real): Cell {
    (lon, lat, if lon + g <= b.lonMax then lon + g else b.lonMax,
               if lat + g <= b.latMax then lat + g else b.latMax)
  }

  /** The cells of one longitude column, south to north. */
  function Column(b: Bbox, g: real, lon: real, lats: seq<real>): (col: seq<Cell>)
    ensures |col| == |lats|
  {
    seq(|lats|, j requires 0 <= j < |lats| => CellAt(b, g, lon, lats[j]))
  }

  /** The cells for the longitudes `lons`, column by column. */
  function CellsOf(b: Bbox, g: real, lons: seq<real>, lats: seq<real>): seq<Cell> {
    if lons == [] then [] else Column(b, g, lons[0], lats) + CellsOf(b, g, lons[1..], lats)
  }

  /** What `create_grid` returns. */
  function Grid(b: Bbox, g: real): seq<Cell>
    requires g > 0.0
  {
    CellsOf(b, g, Axis(b.lonMin, b.lonMax, g), Axis(b.latMin, b.latMax, g))
  }

  /** `create_grid`: two nested while loops stepping `lon` and `lat` by the
      grid size. The source needs g > 0 to terminate on a non-empty box. */
  method CreateGrid(b: Bbox, g: real) returns (cells: seq<Cell>)
    requires g > 0.0
    ensures cells == Grid(b, g)
  {
    var lats := Axis(b.latMin, b.latMax, g);
    cells := [];
    var lon := b.lonMin;
    while lon < b.lonMax
      invariant cells + CellsOf(b, g, Axis(lon, b.lonMax, g), lats) == Grid(b, g)
      decreases Rounds(lon, b.lonMax, g)
    {
      ghost var before := cells;
      var lat := b.latMin;
      while lat < b.latMax
        invariant before + Column(b, g, lon, lats) == cells + Column(b, g, lon, Axis(lat, b.latMax, g))
        decreases Rounds(lat, b.latMax, g)
      {
        ColumnHead(b, g, lon, lat, b.latMax);
        cells := cells + [(lon, lat, Min2(lon + g, b.lonMax), Min2(lat + g, b.latMax))];
        RoundsStep(lat, b.latMax, g);
        lat := lat + g;
      }
      assert Axis(lat, b.latMax, g) == [];
      assert cells == before + Column(b, g, lon, lats);
      RoundsStep(lon, b.lonMax, g);
      lon := lon + g;
    }
  }

  /** Python's `min` on two floats. */
  function Min2(a: real, b: real): real { if a <= b then a else b }

  lemma ColumnHead(b: Bbox, g: real, lon: real, lat: real, hi: real)
    requires g > 0.0 && lat < hi
    ensures Column(b, g, lon, Axis(lat, hi, g)) ==
      [(lon, lat, Min2(lon + g, b.lonMax), Min2(lat + g, b.latMax))] + Column(b, g, lon, Axis(lat + g, hi, g))
  {
    var rest := Axis(lat + g, hi, g);
    assert Axis(lat, hi, g) == [lat] + rest;
  }

  lemma {:induction false} CellsOfLength(b: Bbox, g: real, lons: seq<real>, lats: seq<real>)
    ensures |CellsOf(b, g, lons, lats)| == |lons| * |lats|
  {
    if lons != [] {
      CellsOfLength(b, g, lons[1..], lats);
      assert |lons| * |lats| == |lats| + (|lons| - 1) * |lats|;
    }
  }

  lemma {:induction false} CellsOfAt(b: Bbox, g: real, lons: seq<real>, lats: seq<real>, i: nat, j: nat)
    requires i < |lons| && j < |lats|
    ensures |CellsOf(b, g, lons, lats)| == |lons| * |lats|
    ensures i * |lats| + j < |lons| * |lats|
    ensures CellsOf(b, g, lons, lats)[i * |lats| + j] == CellAt(b, g, lons[i], lats[j])
  {
    CellsOfLength(b, g, lons, lats);
    MulStep(i, |lons|, |lats|, j);
    if i > 0 {
      CellsOfAt(b, g, lons[1..], lats, i - 1, j);
      assert i * |lats| + j == |lats| + ((i - 1) * |lats| + j);
    }
  }

  /** The grid is longitude-major with ceil(dlon/g) * ceil(dlat/g) cells
      (none when the box is empty in either direction); cell (i, j) has its
      corner at (lonMin + i*g, latMin + j*g), inside the box, and its far
      edges clipped to the box. */
  lemma GridSpec(b: Bbox, g: real, i: nat, j: nat)
    requires g > 0.0
    ensures var nLon, nLat := |Axis(b.lonMin, b.lonMax, g)|, |Axis(b.latMin, b.latMax, g)|;
      |Grid(b, g)| == nLon * nLat &&
      (b.lonMin >= b.lonMax || b.latMin >= b.latMax ==> Grid(b, g) == [])
    ensures var nLon, nLat := |Axis(b.lonMin, b.lonMax, g)|, |Axis(b.latMin, b.latMax, g)|;
      i < nLon && j < nLat ==>
        i * nLat + j < |Grid(b, g)| &&
        var (a, c, e, d) := Grid(b, g)[i * nLat + j];
        a == b.lonMin + i as real * g && c == b.latMin + j as real * g &&
        b.lonMin <= a < b.lonMax && b.latMin <= c < b.latMax &&
        e == Min2(a + g, b.lonMax) && d == Min2(c + g, b.latMax)
  {
    var lons, lats := Axis(b.lonMin, b.lonMax, g), Axis(b.latMin, b.latMax, g);
    CellsOfLength(b, g, lons, lats);
    AxisLength(b.lonMin, b.lonMax, g);
    AxisLength(b.latMin, b.latMax, g);
    if i < |lons| && j < |lats| {
      CellsOfAt(b, g, lons, lats, i, j);
      AxisAt(b.lonMin, b.lonMax, g, i);
      AxisAt(b.latMin, b.latMax, g, j);
    }
  }

  // ---------------------------------------------------------------------
  // Calendar months
  // ---------------------------------------------------------------------

  /** A `datetime`: `click.DateTime()` also accepts a time of day, kept here
      as seconds since midnight. */
  datatype DateTime = DateTime(year: int, month: int, day: int, tod: int)

  predicate IsLeap(y: int) { (y % 4 == 0 && y % 100 != 0) || y % 400 == 0 }

  function DaysInMonth(y: int, m: int): int {
    if m == 2 then (if IsLeap(y) then 29 else 28)
    else if m == 4 || m == 6 || m == 9 || m == 11 then 30
    else 31
  }

  predicate Valid(d: DateTime) {
    1 <= d.month <= 12 && 1 <= d.day <= DaysInMonth(d.year, d.month) && 0 <= d.tod < 86400
  }

  /** Chronological order of two `datetime`s. */
  predicate LessEq(a: DateTime, b: DateTime) {
    a.year < b.year ||
    (a.year == b.year && (a.month < b.month ||
    (a.month == b.month && (a.day < b.day ||
    (a.day == b.day && a.tod <= b.tod)))))
  }

  /** Months counted from year 0. */
  function MonthIndex(d: DateTime): int { 12 * d.year + d.month - 1 }

  /** `d + relativedelta(months=1)` for a date on day 1. */
  function NextMonth(d: DateTime): DateTime {
    if d.month == 12 then DateTime(d.year + 1, 1, 1, d.tod) else DateTime(d.year, d.month + 1, 1, d.tod)
  }

  /** The day after `d`, same time of day. */
  function NextDay(d: DateTime): DateTime {
    if d.day < DaysInMonth(d.year, d.month) then DateTime(d.year, d.month, d.day + 1, d.tod)
    else if d.month == 12 then DateTime(d.year + 1, 1, 1, d.tod)
    else DateTime(d.year, d.month + 1, 1, d.tod)
  }

  /** `next_month - timedelta(days=1)`: the last day of `d`'s month. */
  function MonthEnd(d: DateTime): DateTime {
    DateTime(d.year, d.month, DaysInMonth(d.year, d.month), d.tod)
  }

  type Range = (DateTime, DateTime)

  /** The ranges the loop produces from month start `current` on. */
  function MonthsFrom(current: DateTime, end: DateTime): seq<Range>
    requires 1 <= current.month <= 12 && 1 <= end.month
    decreases MonthIndex(end) - MonthIndex(current) + 1
  {
    if LessEq(current, end) then [(current, MonthEnd(current))] + MonthsFrom(NextMonth(current), end)
    else []
  }

  /** `start_date.replace(day=1)`. */
  function FirstOfMonth(d: DateTime): DateTime { DateTime(d.year, d.month, 1, d.tod) }

  /** `get_monthly_dates`. */
  method GetMonthlyDates(start: DateTime, end: DateTime) returns (dates: seq<Range>)
    requires Valid(start) && Valid(end)
    ensures dates == MonthsFrom(FirstOfMonth(start), end)
  {
    dates := [];
    var current := FirstOfMonth(start);
    while LessEq(current, end)
      invariant 1 <= current.month <= 12
      invariant dates + MonthsFrom(current, end) == MonthsFrom(FirstOfMonth(start), end)
      decreases MonthIndex(end) - MonthIndex(current) + 1
    {
      var nextMonth := NextMonth(current);
      dates := dates + [(current, MonthEnd(current))];
      current := nextMonth;
    }
  }

  /** Every range runs from the 1st of a month to its last day, the first
      one in the start's month; each range's day after its end is the next
      range's start, so the ranges abut with no gap and no overlap. */
  lemma {:induction false} MonthsFromSpec(current: DateTime, end: DateTime)
    requires 1 <= current.month <= 12 && current.day == 1 && 0 <= current.tod < 86400
    requires 1 <= end.month
    ensures var r := MonthsFrom(current, end);
      (r != [] ==> r[0].0 == current) &&
      (forall k :: 0 <= k < |r| ==>
        Valid(r[k].0) && Valid(r[k].1) && r[k].0.day == 1 &&
        r[k].1 == MonthEnd(r[k].0) && LessEq(r[k].0, r[k].1)) &&
      (forall k :: 0 <= k < |r| - 1 ==> NextDay(r[k].1) == r[k + 1].0)
    decreases MonthIndex(end) - MonthIndex(current) + 1
  {
    if LessEq(current, end) {
      var next := NextMonth(current);
      MonthsFromSpec(next, end);
      var r := MonthsFrom(current, end);
      var rest := MonthsFrom(next, end);
      assert r == [(current, MonthEnd(current))] + rest;
      forall k | 0 <= k < |r|
        ensures Valid(r[k].0) && Valid(r[k].1) && r[k].0.day == 1 &&
                r[k].1 == MonthEnd(r[k].0) && LessEq(r[k].0, r[k].1)
      {
        if k > 0 { assert r[k] == rest[k - 1]; }
      }
      forall k | 0 <= k < |r| - 1
        ensures NextDay(r[k].1) == r[k + 1].0
      {
        if k > 0 { assert r[k] == rest[k - 1] && r[k + 1] == rest[k]; }
      }
    }
  }

  /** The number of ranges: every month from the start's to the end's,
      except that the end's own month counts only when its 1st, at the
      start's time of day, is not after the end; none at all when the end
      lies in an earlier month. */
  function ExpectedMonths(start: DateTime, end: DateTime): nat {
    var span := MonthIndex(end) - MonthIndex(start);
    if span < 0 then 0
    else span + (if end.day > 1 || start.tod <= end.tod then 1 else 0)
  }

  lemma {:induction false} MonthsFromCount(current: DateTime, end: DateTime)
    requires 1 <= current.month <= 12 && current.day == 1
    requires 1 <= end.month <= 12 && 1 <= end.day
    ensures |MonthsFrom(current, end)| == ExpectedMonths(current, end)
    decreases MonthIndex(end) - MonthIndex(current) + 1
  {
    if LessEq(current, end) {
      MonthsFromCount(NextMonth(current), end);
    }
  }

  lemma GetMonthlyDatesCount(start: DateTime, end: DateTime)
    requires Valid(start) && Valid(end)
    ensures |MonthsFrom(FirstOfMonth(start), end)| == ExpectedMonths(start, end)
    ensures MonthsFrom(FirstOfMonth(start), end) != [] ==> MonthsFrom(FirstOfMonth(start), end)[0].0.day == 1
  {
    MonthsFromCount(FirstOfMonth(start), end);
    MonthsFromSpec(FirstOfMonth(start), end);
  }

  /** From 15 January to 10 March (same time): three months; an end on
      1 March at an earlier time than the start's drops March. */
  lemma MonthExamples()
    ensures ExpectedMonths(DateTime(2024, 1, 15, 0), DateTime(2024, 3, 10, 0)) == 3
    ensures ExpectedMonths(DateTime(2024, 1, 15, 3600), DateTime(2024, 3, 1, 0)) == 2
    ensures ExpectedMonths(DateTime(2024, 3, 15, 0), DateTime(2024, 2, 20, 0)) == 0
  {
  }

  // ---------------------------------------------------------------------
  // Tasks and completeness
  // ---------------------------------------------------------------------

  type Task = (Cell, DateTime, DateTime)

  /** The tasks of the first `n` cells, cell-major. */
  function TasksUpTo(cells: seq<Cell>, ranges: seq<Range>, n: nat): seq<Task>
    requires n <= |cells|
  {
    if n == 0 then []
    else TasksUpTo(cells, ranges, n - 1) +
         seq(|ranges|, j requires 0 <= j < |ranges| => (cells[n - 1], ranges[j].0, ranges[j].1))
  }

  /** The task-building loops of `main`. */
  method BuildTasks(cells: seq<Cell>, ranges: seq<Range>) returns (tasks: seq<Task>)
    ensures tasks == TasksUpTo(cells, ranges, |cells|)
  {
    tasks := [];
    for i := 0 to |cells|
      invariant tasks == TasksUpTo(cells, ranges, i)
    {
      ghost var row := seq(|ranges|, j requires 0 <= j < |ranges| => (cells[i], ranges[j].0, ranges[j].1));
      for j := 0 to |ranges|
        invariant tasks == TasksUpTo(cells, ranges, i) + row[..j]
      {
        tasks := tasks + [(cells[i], ranges[j].0, ranges[j].1)];
        assert row[..j + 1] == row[..j] + [row[j]];
      }
      assert row[..|ranges|] == row;
    }
  }

  /** Task i*|ranges| + j pairs cell i with range j: every pair exactly once,
      |cells| * |ranges| in all. */
  lemma {:induction false} TasksSpec(cells: seq<Cell>, ranges: seq<Range>, n: nat, i: nat, j: nat)
    requires n <= |cells| && i < n && j < |ranges|
    ensures |TasksUpTo(cells, ranges, n)| == n * |ranges|
    ensures i * |ranges| + j < n * |ranges|
    ensures TasksUpTo(cells, ranges, n)[i * |ranges| + j] == (cells[i], ranges[j].0, ranges[j].1)
  {
    TasksLength(cells, ranges, n);
    MulStep(i, n, |ranges|, j);
    if i < n - 1 {
      TasksSpec(cells, ranges, n - 1, i, j);
    } else {
      TasksLength(cells, ranges, n - 1);
    }
  }

  lemma {:induction false} TasksLength(cells: seq<Cell>, ranges: seq<Range>, n: nat)
    requires n <= |cells|
    ensures |TasksUpTo(cells, ranges, n)| == n * |ranges|
  {
    if n > 0 {
      TasksLength(cells, ranges, n - 1);
    }
  }

  /** The successful downloads in submission order. */
  function Successes<R>(outcomes: seq<Option<R>>): (r: seq<R>)
    ensures |r| <= |outcomes|
  {
    if outcomes == [] then []
    else Successes(outcomes[..|outcomes| - 1]) +
         (if outcomes[|outcomes| - 1].Some? then [outcomes[|outcomes| - 1].value] else [])
  }

  /** Collecting `future.result()` in order, keeping the non-empty ones. */
  method CollectResults<R>(outcomes: seq<Option<R>>) returns (results: seq<R>)
    ensures results == Successes(outcomes)
  {
    results := [];
    for k := 0 to |outcomes|
      invariant results == Successes(outcomes[..k])
    {
      assert outcomes[..k + 1][..k] == outcomes[..k];
      if outcomes[k].Some? {
        results := results + [outcomes[k].value];
      }
    }
    assert outcomes[..|outcomes|] == outcomes;
  }

  /** Every download succeeded exactly when the results are as many as the
      outcomes. */
  lemma {:induction false} SuccessesComplete<R>(outcomes: seq<Option<R>>)
    ensures |Successes(outcomes)| == |outcomes| <==> forall k :: 0 <= k < |outcomes| ==> outcomes[k].Some?
  {
    if outcomes != [] {
      var init := outcomes[..|outcomes| - 1];
      SuccessesComplete(init);
      if forall k :: 0 <= k < |outcomes| ==> outcomes[k].Some? {
        assert forall k :: 0 <= k < |init| ==> init[k].Some? by {
          forall k | 0 <= k < |init| ensures init[k].Some? { assert init[k] == outcomes[k]; }
        }
      } else {
        var k :| 0 <= k < |outcomes| && outcomes[k].None?;
        if k < |init| {
          assert init[k] == outcomes[k];
        }
      }
    }
  }

  /** `main` after option parsing: parse the box, check the credentials,
      plan the grid, months and tasks, run every download (a parameter here,
      run one after another), and fail unless every expected image came back. */
  method RunFetcher<R>(bboxOption: string, toFloat: string -> Option<real>, start: DateTime, end: DateTime,
                       g: real, hasCredentials: bool, download: Task -> Option<R>)
    returns (r: Result<seq<R>>)
    requires Valid(start) && Valid(end) && g > 0.0
    ensures ParseBbox(bboxOption, toFloat).Err? ==> r == Err(BadParameter)
    ensures ParseBbox(bboxOption, toFloat).Ok? && !hasCredentials ==> r == Err(MissingCredentials)
    ensures ParseBbox(bboxOption, toFloat).Ok? && hasCredentials ==>
      var cells := Grid(ParseBbox(bboxOption, toFloat).value, g);
      var ranges := MonthsFrom(FirstOfMonth(start), end);
      var tasks := TasksUpTo(cells, ranges, |cells|);
      var outcomes := seq(|tasks|, k requires 0 <= k < |tasks| => download(tasks[k]));
      (r.Ok? <==> forall k :: 0 <= k < |tasks| ==> download(tasks[k]).Some?) &&
      (r.Ok? ==> r.value == Successes(outcomes)) &&
      (r.Err? ==> r.error == Incomplete(|Successes(outcomes)|, |cells| * |ranges|))
  {
    var parsed := ParseBbox(bboxOption, toFloat);
    if parsed.Err? {
      return Err(BadParameter);
    }
    if !hasCredentials {
      return Err(MissingCredentials);
    }
    var gridCells := CreateGrid(parsed.value, g);
    var dateRanges := GetMonthlyDates(start, end);
    var tasks := BuildTasks(gridCells, dateRanges);
    var outcomes := seq(|tasks|, k requires 0 <= k < |tasks| => download(tasks[k]));
    var results := CollectResults(outcomes);
    var expected := |gridCells| * |dateRanges|;
    TasksLength(gridCells, dateRanges, |gridCells|);
    SuccessesComplete(outcomes);
    assert forall k :: 0 <= k < |tasks| ==> outcomes[k] == download(tasks[k]);
    if |results| < expected {
      r := Err(Incomplete(|results|, expected));
    } else {
      r := Ok(results);
    }
  }
}
