/** The dashboard's vessel store (`app/store/useVesselStore.ts`): the list
    of vessels, the list of alerts, the selected alert and the list filters,
    replaced by the store's actions, and the filtered view of the vessels. */
module VesselStore {
  import opened Text
  import opened VesselTypes

  /** The list filters; an empty list puts no constraint. Dates are
      milliseconds. */
  datatype Filters = Filters(status: seq<string>, kinds: seq<string>, dateRange: (Option<int>, Option<int>))

  /** A `Partial<Vessel>`: each property either absent or given (an
      optional property may be given as `undefined`, here `Some(None)`). */
  datatype VesselPatch = VesselPatch(
    id: Option<string>,
    name: Option<string>,
    kind: Option<string>,
    status: Option<Status>,
    location: Option<Location>,
    speed: Option<real>,
    course: Option<real>,
    confidence: Option<Option<real>>,
    aisMatch: Option<Option<bool>>,
    timestamp: Option<Option<string>>,
    lastAisTransmission: Option<Option<int>>,
    previousPositions: Option<Option<seq<Position>>>,
    suspicious: Option<Option<bool>>)

  /** `{ ...v, ...patch }`: every property the patch gives overrides. */
  function Merge(v: Vessel, p: VesselPatch): Vessel {
    Vessel(
      p.id.GetOr(v.id), p.name.GetOr(v.name), p.kind.GetOr(v.kind), p.status.GetOr(v.status),
      p.location.GetOr(v.location), p.speed.GetOr(v.speed), p.course.GetOr(v.course),
      p.confidence.GetOr(v.confidence), p.aisMatch.GetOr(v.aisMatch), p.timestamp.GetOr(v.timestamp),
      p.lastAisTransmission.GetOr(v.lastAisTransmission), p.previousPositions.GetOr(v.previousPositions),
      p.suspicious.GetOr(v.suspicious))
  }

  /** The empty patch changes nothing, and merging the same patch twice is
      merging it once. */
  lemma MergeSpec(v: Vessel, p: VesselPatch)
    ensures Merge(v, VesselPatch(None, None, None, None, None, None, None, None, None, None, None, None, None)) == v
    ensures Merge(Merge(v, p), p) == Merge(v, p)
    ensures p.id.None? ==> Merge(v, p).id == v.id
  {
  }

  /** `vessels.map(v => v.id === id ? { ...v, ...patch } : v)`. */
  function UpdateById(vessels: seq<Vessel>, id: string, p: VesselPatch): seq<Vessel> {
    seq(|vessels|, k requires 0 <= k < |vessels| =>
      if vessels[k].id == id then Merge(vessels[k], p) else vessels[k])
  }

  /** Every vessel with the id takes the patch, whichever position it is in;
      every other vessel, the length and the order are unchanged; an absent
      id leaves the list as it is; applying the update twice is applying it
      once. */
  lemma UpdateByIdSpec(vessels: seq<Vessel>, id: string, p: VesselPatch)
    ensures |UpdateById(vessels, id, p)| == |vessels|
    ensures forall k :: 0 <= k < |vessels| && vessels[k].id != id ==> UpdateById(vessels, id, p)[k] == vessels[k]
    ensures forall k :: 0 <= k < |vessels| && vessels[k].id == id ==>
      UpdateById(vessels, id, p)[k] == Merge(vessels[k], p)
    ensures (forall k :: 0 <= k < |vessels| ==> vessels[k].id != id) ==> UpdateById(vessels, id, p) == vessels
    ensures UpdateById(UpdateById(vessels, id, p), id, p) == UpdateById(vessels, id, p)
  {
    var once := UpdateById(vessels, id, p);
    var twice := UpdateById(once, id, p);
    forall k | 0 <= k < |vessels| ensures twice[k] == once[k] {
      MergeSpec(vessels[k], p);
    }
  }

  function IdIsNot(id: string): Vessel -> bool { (v: Vessel) => v.id != id }

  function AlertIdIsNot(id: string): AlertRecord -> bool { (a: AlertRecord) => a.id != id }

  function IdIs(id: string): Vessel -> bool { (v: Vessel) => v.id == id }

  /** `vessels.filter(v => v.id !== id)`. */
  function RemoveById(vessels: seq<Vessel>, id: string): seq<Vessel> {
    Filter(vessels, IdIsNot(id))
  }

  /** Every vessel with the id goes and every other stays, in order (the
      removal distributes over concatenation); their counts add up to the
      original length; an absent id changes nothing; removing twice is
      removing once. */
  lemma RemoveByIdSpec(vessels: seq<Vessel>, id: string, rest: seq<Vessel>)
    ensures forall v :: v in RemoveById(vessels, id) <==> v in vessels && v.id != id
    ensures RemoveById(vessels + rest, id) == RemoveById(vessels, id) + RemoveById(rest, id)
    ensures |RemoveById(vessels, id)| + |Filter(vessels, IdIs(id))| == |vessels|
    ensures (forall k :: 0 <= k < |vessels| ==> vessels[k].id != id) ==> RemoveById(vessels, id) == vessels
    ensures RemoveById(RemoveById(vessels, id), id) == RemoveById(vessels, id)
  {
    FilterAppend(vessels, rest, IdIsNot(id));
    FilterComplement(vessels, IdIsNot(id), IdIs(id));
    if forall k :: 0 <= k < |vessels| ==> vessels[k].id != id {
      FilterAll(vessels, IdIsNot(id));
    }
    FilterIdempotent(vessels, IdIsNot(id));
  }

  /** `alerts.filter(a => a.id !== id)`. */
  function RemoveAlertById(alerts: seq<AlertRecord>, id: string): seq<AlertRecord> {
    Filter(alerts, AlertIdIsNot(id))
  }

  /** The same for alerts: every alert with the id goes, the others stay in
      order, and an absent id changes nothing. */
  lemma RemoveAlertByIdSpec(alerts: seq<AlertRecord>, id: string, rest: seq<AlertRecord>)
    ensures forall a :: a in RemoveAlertById(alerts, id) <==> a in alerts && a.id != id
    ensures RemoveAlertById(alerts + rest, id) == RemoveAlertById(alerts, id) + RemoveAlertById(rest, id)
    ensures (forall k :: 0 <= k < |alerts| ==> alerts[k].id != id) ==> RemoveAlertById(alerts, id) == alerts
  {
    FilterAppend(alerts, rest, AlertIdIsNot(id));
    if forall k :: 0 <= k < |alerts| ==> alerts[k].id != id {
      FilterAll(alerts, AlertIdIsNot(id));
    }
  }

  function StatusIn(f: Filters): Vessel -> bool { (v: Vessel) => v.status.Name() in f.status }

  function KindIn(f: Filters): Vessel -> bool { (v: Vessel) => v.kind in f.kinds }

  /** A vessel passes the filters: its status and its type are listed, or the
      list is empty. The date range plays no part. */
  predicate Passes(f: Filters, v: Vessel) {
    (|f.status| == 0 || v.status.Name() in f.status) && (|f.kinds| == 0 || v.kind in f.kinds)
  }

  function PassesFilters(f: Filters): Vessel -> bool { (v: Vessel) => Passes(f, v) }

  /** The body of `getFilteredVessels`: the status filter, then the type
      filter, each applied only when its list is non-empty. */
  function FilterVessels(vessels: seq<Vessel>, f: Filters): seq<Vessel> {
    var byStatus := if |f.status| > 0 then Filter(vessels, StatusIn(f)) else vessels;
    if |f.kinds| > 0 then Filter(byStatus, KindIn(f)) else byStatus
  }

  /** The two filters amount to one: the vessels that pass both, in list
      order; with both lists empty, every vessel; the date range never
      matters. */
  lemma FilterVesselsSpec(vessels: seq<Vessel>, f: Filters, range: (Option<int>, Option<int>))
    ensures FilterVessels(vessels, f) == Filter(vessels, PassesFilters(f))
    ensures forall v :: v in FilterVessels(vessels, f) <==> v in vessels && Passes(f, v)
    ensures |f.status| == 0 && |f.kinds| == 0 ==> FilterVessels(vessels, f) == vessels
    ensures FilterVessels(vessels, f.(dateRange := range)) == FilterVessels(vessels, f)
  {
    var pass := PassesFilters(f);
    if |f.status| > 0 && |f.kinds| > 0 {
      FilterFilter(vessels, StatusIn(f), KindIn(f), pass);
    } else if |f.status| > 0 {
      FilterFilter(vessels, StatusIn(f), (v: Vessel) => true, pass);
      FilterAll(Filter(vessels, StatusIn(f)), (v: Vessel) => true);
    } else if |f.kinds| > 0 {
      FilterFilter(vessels, (v: Vessel) => true, KindIn(f), pass);
      FilterAll(vessels, (v: Vessel) => true);
    } else {
      FilterAll(vessels, pass);
    }
  }

  function MockVessels(): seq<Vessel> {
    [ Vessel("1", "Ocean Voyager", "Cargo", Active, Location(1.3521, 103.8198), 12.0, 45.0,
             None, None, None, None, None, None),
      Vessel("2", "Pacific Star", "Tanker", Dark, Location(1.3521, 104.8198), 0.0, 0.0,
             None, None, None, None, None, None),
      Vessel("3", "Indian Queen", "Fishing", Alert, Location(1.3521, 102.8198), 8.0, 90.0,
             None, None, None, None, None, None) ]
  }

  function MockAlerts(): seq<AlertRecord> {
    [ AlertRecord("1", "Dark Vessel", "high", "2024-03-20T10:30:00Z", Location(1.3521, 104.8198),
                  "Vessel has gone dark for more than 24 hours", Some("Pacific Star")),
      AlertRecord("2", "Suspicious Activity", "medium", "2024-03-20T09:15:00Z", Location(1.3521, 102.8198),
                  "Vessel detected in restricted fishing zone", Some("Indian Queen")) ]
  }

  /** With no filters, the mock vessels are all listed; filtering on
      'dark' leaves only the Pacific Star. */
  lemma MockFilterExample()
    ensures FilterVessels(MockVessels(), Filters([], [], (None, None))) == MockVessels()
    ensures FilterVessels(MockVessels(), Filters(["dark"], [], (None, None))) == [MockVessels()[1]]
  {
    var f := Filters(["dark"], [], (None, None));
    var m := MockVessels();
    assert m == [m[0], m[1], m[2]];
    FilterThree(m[0], m[1], m[2], StatusIn(f));
  }

  /** Filtering a three-element list, element by element. */
  lemma FilterThree<T(!new)>(a: T, b: T, c: T, p: T -> bool)
    ensures Filter([a, b, c], p) == (if p(a) then [a] else []) + (if p(b) then [b] else []) + (if p(c) then [c] else [])
  {
    assert [a, b, c][..2] == [a, b];
    assert [a, b][..1] == [a];
    assert [a][..0] == [];
    assert Filter([a], p) == (if p(a) then [a] else []);
    assert Filter([a, b], p) == Filter([a], p) + (if p(b) then [b] else []);
    assert Filter([a, b, c], p) == Filter([a, b], p) + (if p(c) then [c] else []);
  }

  /** The zustand store: its state, and its actions as methods that replace
      one field each. */
  class Store {
    var vessels: seq<Vessel>
    var alerts: seq<AlertRecord>
    var selectedAlert: Option<AlertRecord>
    var filters: Filters

    /** The initial state: the mock vessels and alerts, nothing selected, no
        filters. */
    constructor()
      ensures vessels == MockVessels() && alerts == MockAlerts()
      ensures selectedAlert == None && filters == Filters([], [], (None, None))
    {
      vessels := MockVessels();
      alerts := MockAlerts();
      selectedAlert := None;
      filters := Filters([], [], (None, None));
    }

    /** `setSelectedAlert`. */
    method SetSelectedAlert(alert: Option<AlertRecord>)
      modifies this
      ensures selectedAlert == alert
      ensures vessels == old(vessels) && alerts == old(alerts) && filters == old(filters)
    {
      selectedAlert := alert;
    }

    /** `addVessel`: appends, with no check for a duplicate id. */
    method AddVessel(vessel: Vessel)
      modifies this
      ensures vessels == old(vessels) + [vessel]
      ensures alerts == old(alerts) && selectedAlert == old(selectedAlert) && filters == old(filters)
    {
      vessels := vessels + [vessel];
    }

    /** `updateVessel`. */
    method UpdateVessel(id: string, patch: VesselPatch)
      modifies this
      ensures vessels == UpdateById(old(vessels), id, patch)
      ensures alerts == old(alerts) && selectedAlert == old(selectedAlert) && filters == old(filters)
    {
      vessels := UpdateById(vessels, id, patch);
    }

    /** `removeVessel`. */
    method RemoveVessel(id: string)
      modifies this
      ensures vessels == RemoveById(old(vessels), id)
      ensures alerts == old(alerts) && selectedAlert == old(selectedAlert) && filters == old(filters)
    {
      vessels := RemoveById(vessels, id);
    }

    /** `addAlert`: appends, with no check for a duplicate id. */
    method AddAlert(alert: AlertRecord)
      modifies this
      ensures alerts == old(alerts) + [alert]
      ensures vessels == old(vessels) && selectedAlert == old(selectedAlert) && filters == old(filters)
    {
      alerts := alerts + [alert];
    }

    /** `removeAlert`: the selected alert is kept even when it is the one
        removed. */
    method RemoveAlert(id: string)
      modifies this
      ensures alerts == RemoveAlertById(old(alerts), id)
      ensures vessels == old(vessels) && selectedAlert == old(selectedAlert) && filters == old(filters)
    {
      alerts := RemoveAlertById(alerts, id);
    }

    /** `getFilteredVessels`: reads the state and changes nothing. */
    function GetFilteredVessels(): (r: seq<Vessel>)
      reads this
      ensures forall v :: v in r <==> v in vessels && Passes(filters, v)
    {
      FilterVesselsSpec(vessels, filters, filters.dateRange);
      FilterVessels(vessels, filters)
    }
  }

  /** Adding a vessel and then removing its id leaves the earlier vessels
      without that id, in order: a vessel added under an id already present
      is removed together with the older one. */
  lemma AddThenRemove(vessels: seq<Vessel>, v: Vessel)
    ensures RemoveById(vessels + [v], v.id) == RemoveById(vessels, v.id)
  {
    FilterAppend(vessels, [v], IdIsNot(v.id));
    assert Filter([v], IdIsNot(v.id)) == Filter([], IdIsNot(v.id)) + [];
  }
}
