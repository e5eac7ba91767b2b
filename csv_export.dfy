/** The CSV export of the vessel list (`convertVesselsToCSV` in
    `app/utils/exportUtils.ts`): a fixed header line, then one line per
    vessel with its thirteen values joined by commas, the name wrapped in
    double quotes, and the lines joined by newlines. */
module CsvExport {
  import opened Text

  /** `vessel.position`, whose `lat` and `lng` may be missing. */
  datatype Coordinates = Coordinates(lat: Option<string>, lng: Option<string>)

  /** The properties the export reads, each as the text JavaScript renders
      for it, or `None` when it is `undefined`. */
  datatype CsvVessel = CsvVessel(
    id: Option<string>,
    name: Option<string>,
    kind: Option<string>,
    mmsi: Option<string>,
    imo: Option<string>,
    flag: Option<string>,
    position: Option<Coordinates>,
    speed: Option<string>,
    course: Option<string>,
    lastUpdate: Option<string>,
    riskLevel: Option<string>,
    region: Option<string>)

  const Columns: seq<string> := ["ID", "Name", "Type", "MMSI", "IMO", "Flag", "Latitude", "Longitude",
                                 "Speed", "Course", "Last Update", "Risk Level", "Region"]

  const Header: string := Join(Columns, ',')

  /** `Array.prototype.join` renders `undefined` as the empty string. */
  function Cell(value: Option<string>): string { value.GetOr("") }

  /** A template literal renders `undefined` as the word itself. */
  function Quoted(name: Option<string>): string { "\"" + name.GetOr("undefined") + "\"" }

  /** The thirteen values of one row, in header order. */
  function RowValues(v: CsvVessel): (r: seq<string>)
    requires v.position.Some?
    ensures |r| == 13
  {
    [Cell(v.id), Quoted(v.name), Cell(v.kind), Cell(v.mmsi), Cell(v.imo), Cell(v.flag),
     Cell(v.position.value.lat), Cell(v.position.value.lng), Cell(v.speed), Cell(v.course),
     Cell(v.lastUpdate), Cell(v.riskLevel), Cell(v.region)]
  }

  function Row(v: CsvVessel): string
    requires v.position.Some?
  {
    Join(RowValues(v), ',')
  }

  function Rows(vessels: seq<CsvVessel>): (r: seq<string>)
    requires forall k :: 0 <= k < |vessels| ==> vessels[k].position.Some?
    ensures |r| == |vessels|
  {
    seq(|vessels|, k requires 0 <= k < |vessels| => Row(vessels[k]))
  }

  /** `convertVesselsToCSV`; `None` where reading `position.lat` of a vessel
      without a position throws. */
  function ConvertVesselsToCsv(vessels: seq<CsvVessel>): Option<string> {
    if forall k :: 0 <= k < |vessels| ==> vessels[k].position.Some? then
      Some(Join([Header] + Rows(vessels), '\n'))
    else None
  }

  /** A character absent from every piece and from the separator is absent
      from the joined text. */
  lemma {:induction false} JoinAvoids(xs: seq<string>, c: char, d: char)
    requires c != d
    requires forall k :: 0 <= k < |xs| ==> d !in xs[k]
    ensures d !in Join(xs, c)
  {
    if |xs| > 1 {
      JoinAvoids(xs[1..], c, d);
    }
  }

  /** The header reads back as exactly the thirteen column names in order. */
  lemma HeaderSpec()
    ensures Split(Header, ',') == Columns
    ensures '\n' !in Header
  {
    ColumnsPlain();
    SplitJoin(Columns, ',');
    JoinAvoids(Columns, ',', '\n');
  }

  lemma ColumnsPlain()
    ensures forall k :: 0 <= k < |Columns| ==> Plain(Columns[k])
  {
    IdentityColumnsPlain();
    PositionColumnsPlain();
    StatusColumnsPlain();
  }

  lemma IdentityColumnsPlain()
    ensures Plain("ID") && Plain("Name") && Plain("Type") && Plain("MMSI") && Plain("IMO")
  {
  }

  lemma PositionColumnsPlain()
    ensures Plain("Flag") && Plain("Latitude") && Plain("Longitude") && Plain("Speed")
  {
  }

  lemma StatusColumnsPlain()
    ensures Plain("Course") && Plain("Last Update") && Plain("Risk Level") && Plain("Region")
  {
  }

  /** Free of commas and newlines. */
  predicate Plain(s: string) { ',' !in s && '\n' !in s }

  predicate PlainValue(o: Option<string>) { o.Some? ==> Plain(o.value) }

  /** Every value of the vessel is free of commas and newlines. */
  predicate PlainVessel(v: CsvVessel) {
    PlainValue(v.id) && PlainValue(v.name) && PlainValue(v.kind) && PlainValue(v.mmsi) &&
    PlainValue(v.imo) && PlainValue(v.flag) &&
    (v.position.Some? ==> PlainValue(v.position.value.lat) && PlainValue(v.position.value.lng)) &&
    PlainValue(v.speed) && PlainValue(v.course) && PlainValue(v.lastUpdate) &&
    PlainValue(v.riskLevel) && PlainValue(v.region)
  }

  lemma CellPlain(o: Option<string>)
    requires PlainValue(o)
    ensures Plain(Cell(o))
  {
  }

  lemma QuotedPlain(o: Option<string>)
    requires PlainValue(o)
    ensures Plain(Quoted(o))
  {
    var inner := o.GetOr("undefined");
    assert Plain(inner);
    assert Quoted(o) == "\"" + inner + "\"";
  }

  lemma RowValuesPlain(v: CsvVessel)
    requires v.position.Some? && PlainVessel(v)
    ensures forall k :: 0 <= k < |RowValues(v)| ==> Plain(RowValues(v)[k])
  {
    var p := v.position.value;
    CellPlain(v.id); QuotedPlain(v.name); CellPlain(v.kind); CellPlain(v.mmsi); CellPlain(v.imo);
    CellPlain(v.flag); CellPlain(p.lat); CellPlain(p.lng); CellPlain(v.speed); CellPlain(v.course);
    CellPlain(v.lastUpdate); CellPlain(v.riskLevel); CellPlain(v.region);
  }

  /** A row of plain values splits back into its thirteen values in header
      order, the second being the quoted name; the row is one line. */
  lemma RowSpec(v: CsvVessel)
    requires v.position.Some? && PlainVessel(v)
    ensures Split(Row(v), ',') == RowValues(v)
    ensures |Split(Row(v), ',')| == |Columns|
    ensures Split(Row(v), ',')[1] == Quoted(v.name)
    ensures '\n' !in Row(v)
  {
    RowValuesPlain(v);
    SplitJoin(RowValues(v), ',');
    JoinAvoids(RowValues(v), ',', '\n');
  }

  lemma RowsOneLine(vessels: seq<CsvVessel>)
    requires forall k :: 0 <= k < |vessels| ==> vessels[k].position.Some? && PlainVessel(vessels[k])
    ensures forall k :: 0 <= k < |vessels| ==> '\n' !in Rows(vessels)[k]
  {
    forall k | 0 <= k < |vessels| ensures '\n' !in Rows(vessels)[k] {
      RowSpec(vessels[k]);
    }
  }

  lemma LinesOneLine(vessels: seq<CsvVessel>)
    requires forall k :: 0 <= k < |vessels| ==> vessels[k].position.Some? && PlainVessel(vessels[k])
    ensures forall k :: 0 <= k < |vessels| + 1 ==> '\n' !in ([Header] + Rows(vessels))[k]
  {
    HeaderSpec();
    RowsOneLine(vessels);
    var all := [Header] + Rows(vessels);
    assert forall k :: 0 < k < |all| ==> all[k] == Rows(vessels)[k - 1];
  }

  /** The export fails exactly when some vessel has no position. Otherwise,
      with plain values, its lines are the header followed by one row per
      vessel in input order: n + 1 lines, no trailing newline, and the header
      alone for an empty list. */
  lemma ConvertSpec(vessels: seq<CsvVessel>)
    ensures ConvertVesselsToCsv(vessels).None? <==> exists k :: 0 <= k < |vessels| && vessels[k].position.None?
    ensures ConvertVesselsToCsv([]) == Some(Header)
    ensures ConvertVesselsToCsv(vessels).Some? && (forall k :: 0 <= k < |vessels| ==> PlainVessel(vessels[k])) ==>
      var lines := Split(ConvertVesselsToCsv(vessels).value, '\n');
      |lines| == |vessels| + 1 && lines[0] == Header &&
      forall k :: 0 <= k < |vessels| ==> lines[k + 1] == Row(vessels[k])
  {
    ConvertEmpty();
    if ConvertVesselsToCsv(vessels).Some? && forall k :: 0 <= k < |vessels| ==> PlainVessel(vessels[k]) {
      ConvertLines(vessels);
    }
  }

  /** An empty list exports as the header alone. */
  lemma ConvertEmpty()
    ensures ConvertVesselsToCsv([]) == Some(Header)
  {
    assert [Header] + Rows([]) == [Header];
  }

  /** The lines of a successful export of plain values. */
  lemma ConvertLines(vessels: seq<CsvVessel>)
    requires forall k :: 0 <= k < |vessels| ==> vessels[k].position.Some? && PlainVessel(vessels[k])
    ensures var lines := Split(ConvertVesselsToCsv(vessels).value, '\n');
      |lines| == |vessels| + 1 && lines[0] == Header &&
      forall k :: 0 <= k < |vessels| ==> lines[k + 1] == Row(vessels[k])
  {
    var all := [Header] + Rows(vessels);
    assert ConvertVesselsToCsv(vessels).value == Join(all, '\n');
    LinesOneLine(vessels);
    SplitJoin(all, '\n');
    assert forall k :: 0 <= k < |vessels| ==> all[k + 1] == Rows(vessels)[k];
  }

  lemma JoinCons(x: string, xs: seq<string>, c: char)
    requires xs != []
    ensures Join([x] + xs, c) == x + [c] + Join(xs, c)
  {
    assert ([x] + xs)[1..] == xs;
  }

  /** The pieces a row with a comma in the name falls into. */
  function ShiftedPieces(v: CsvVessel, a: string, b: string): seq<string>
    requires v.position.Some?
  {
    [Cell(v.id), "\"" + a, b + "\""] + RowValues(v)[2..]
  }

  lemma RowIsShifted(v: CsvVessel, a: string, b: string)
    requires v.position.Some? && v.name == Some(a + "," + b)
    ensures Row(v) == Join(ShiftedPieces(v, a, b), ',')
  {
    var values := RowValues(v);
    assert values[1] == "\"" + a + "," + b + "\"";
    assert values == [values[0], values[1]] + values[2..];
    CommaSplitsSecond(values[0], a, b, values[2..]);
  }

  /** A comma inside the second of several joined fields reads as a separator. */
  lemma CommaSplitsSecond(x: string, a: string, b: string, rest: seq<string>)
    requires rest != []
    ensures Join([x, "\"" + a + "," + b + "\""] + rest, ',') == Join([x, "\"" + a, b + "\""] + rest, ',')
  {
    var y := "\"" + a + "," + b + "\"";
    assert [x, y] + rest == [x] + ([y] + rest);
    JoinCons(x, [y] + rest, ',');
    JoinCons(y, rest, ',');
    var p, q := "\"" + a, b + "\"";
    assert [x, p, q] + rest == [x] + ([p] + ([q] + rest));
    JoinCons(x, [p] + ([q] + rest), ',');
    JoinCons(p, [q] + rest, ',');
    JoinCons(q, rest, ',');
  }

  lemma ShiftedPiecesPlain(v: CsvVessel, a: string, b: string)
    requires v.position.Some? && Plain(a) && Plain(b)
    requires PlainVessel(v.(name := None))
    ensures forall k :: 0 <= k < |ShiftedPieces(v, a, b)| ==> ',' !in ShiftedPieces(v, a, b)[k]
  {
    var w := v.(name := None);
    RowValuesPlain(w);
    var pieces := ShiftedPieces(v, a, b);
    var tail := RowValues(v)[2..];
    assert tail == RowValues(w)[2..];
    assert forall k :: 0 <= k < |tail| ==> ',' !in tail[k];
    assert ',' !in pieces[0] by { assert pieces[0] == RowValues(w)[0]; }
    assert ',' !in pieces[1] && ',' !in pieces[2];
    assert forall k :: 3 <= k < |pieces| ==> pieces[k] == tail[k - 3];
  }

  /** Nothing is escaped: a comma inside the name splits the row into
      fourteen fields, the quoted name falling apart in two and every later
      value shifting one column right. */
  lemma CommaInNameShiftsColumns(v: CsvVessel, a: string, b: string)
    requires v.position.Some? && v.name == Some(a + "," + b) && Plain(a) && Plain(b)
    requires PlainVessel(v.(name := None))
    ensures Split(Row(v), ',') == [Cell(v.id), "\"" + a, b + "\""] + RowValues(v)[2..]
    ensures |Split(Row(v), ',')| == |Columns| + 1
  {
    RowIsShifted(v, a, b);
    ShiftedPiecesPlain(v, a, b);
    SplitJoin(ShiftedPieces(v, a, b), ',');
  }
}
