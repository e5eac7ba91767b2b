/** The dark-vessel rule engine of the dashboard
    (`app/utils/darkVesselDetection.ts`): four rules over a vessel's AIS
    record and recent track decide whether it is dark or suspicious and why,
    and the vessel's status is updated from that verdict. The clock is the
    parameter `now`; the haversine leg-speed comparison is the parameter
    `implausible`. */
module DarkVessel {
  import opened Text
  import opened VesselTypes

  const TwelveHoursMs: int := 12 * 60 * 60 * 1000
  const HourMs: int := 60 * 60 * 1000

  /** Minimum change in latitude or longitude counted as movement. */
  const PositionChangeThreshold: real := 0.001

  /** Minimum spread of reported speeds, in knots, counted as erratic. */
  const SpeedSpreadLimit: real := 20.0

  function Abs(x: real): real { if x < 0.0 then -x else x }

  // ---------------------------------------------------------------------
  // Newest-first order
  // ---------------------------------------------------------------------

  predicate NewestFirst(s: seq<Position>) {
    forall i, j :: 0 <= i < j < |s| ==> s[i].timestamp >= s[j].timestamp
  }

  /** Places `x` after every entry at least as new, as a stable sort does. */
  function Insert(s: seq<Position>, x: Position): (r: seq<Position>)
    ensures |r| == |s| + 1
    ensures multiset(r) == multiset(s) + multiset{x}
    ensures r[0] == x || (s != [] && r[0] == s[0])
  {
    if s == [] then [x]
    else if s[0].timestamp >= x.timestamp then
      assert s == [s[0]] + s[1..];
      [s[0]] + Insert(s[1..], x)
    else [x] + s
  }

  /** `positions.sort((a, b) => time(b) - time(a))`: a stable sort, newest
      first. */
  function SortNewestFirst(s: seq<Position>): (r: seq<Position>)
    ensures |r| == |s|
    ensures multiset(r) == multiset(s)
  {
    if s == [] then []
    else
      assert s == s[..|s| - 1] + [s[|s| - 1]];
      Insert(SortNewestFirst(s[..|s| - 1]), s[|s| - 1])
  }

  lemma TailNewestFirst(s: seq<Position>)
    requires s != [] && NewestFirst(s)
    ensures NewestFirst(s[1..])
  {
    var tail := s[1..];
    forall i, j | 0 <= i < j < |tail| ensures tail[i].timestamp >= tail[j].timestamp {
      assert tail[i] == s[i + 1] && tail[j] == s[j + 1];
    }
  }

  /** An entry newer than none of `s`'s head is no newer than any entry. */
  lemma HeadNewest(s: seq<Position>, y: Position)
    requires s != [] && NewestFirst(s) && y in multiset(s)
    ensures s[0].timestamp >= y.timestamp
  {
    var k :| 0 <= k < |s| && s[k] == y;
  }

  lemma {:induction false} InsertSorted(s: seq<Position>, x: Position)
    requires NewestFirst(s)
    ensures NewestFirst(Insert(s, x))
  {
    var r := Insert(s, x);
    if s != [] && s[0].timestamp >= x.timestamp {
      var tail := s[1..];
      TailNewestFirst(s);
      InsertSorted(tail, x);
      var rt := Insert(tail, x);
      assert r == [s[0]] + rt;
      forall i, j | 0 <= i < j < |r| ensures r[i].timestamp >= r[j].timestamp {
        assert r[j] == rt[j - 1];
        if i > 0 {
          assert r[i] == rt[i - 1];
        } else if r[j] != x {
          assert r[j] in multiset(rt);
          HeadNewest(s, r[j]);
        }
      }
    } else if s != [] {
      assert r == [x] + s;
      forall i, j | 0 <= i < j < |r| ensures r[i].timestamp >= r[j].timestamp {
        assert r[j] == s[j - 1];
        if i > 0 {
          assert r[i] == s[i - 1];
        }
      }
    }
  }

  /** The sort returns the same positions, newest first. */
  lemma {:induction false} SortNewestFirstSpec(s: seq<Position>)
    ensures multiset(SortNewestFirst(s)) == multiset(s)
    ensures NewestFirst(SortNewestFirst(s))
  {
    if s != [] {
      SortNewestFirstSpec(s[..|s| - 1]);
      InsertSorted(SortNewestFirst(s[..|s| - 1]), s[|s| - 1]);
    }
  }

  /** The three most recent positions, newest first. */
  function Recent(s: seq<Position>): seq<Position> {
    SortNewestFirst(s)[..Min(3, |s|)]
  }

  /** In a newest-first list, an entry not among the first m is no newer
      than any of them. */
  lemma PrefixDominates(t: seq<Position>, m: nat, q: Position)
    requires NewestFirst(t) && m <= |t| && q in t && q !in t[..m]
    ensures forall i :: 0 <= i < m ==> t[i].timestamp >= q.timestamp
  {
    var k :| 0 <= k < |t| && t[k] == q;
    assert forall j :: 0 <= j < m ==> t[j] in t[..m];
    assert k >= m;
  }

  /** Every recent position is at least as new as every position left out. */
  lemma RecentSpec(s: seq<Position>)
    ensures |Recent(s)| == Min(3, |s|)
    ensures NewestFirst(Recent(s))
    ensures forall p :: p in Recent(s) ==> p in s
    ensures forall i, q :: 0 <= i < |Recent(s)| && q in s && q !in Recent(s) ==>
      Recent(s)[i].timestamp >= q.timestamp
  {
    var t := SortNewestFirst(s);
    SortNewestFirstSpec(s);
    var m := Min(3, |s|);
    forall p | p in Recent(s) ensures p in s {
      assert p in multiset(t);
    }
    forall q | q in s && q !in Recent(s)
      ensures forall i :: 0 <= i < m ==> Recent(s)[i].timestamp >= q.timestamp
    {
      assert q in multiset(t);
      PrefixDominates(t, m, q);
    }
  }

  // ---------------------------------------------------------------------
  // checkForMovement
  // ---------------------------------------------------------------------

  /** Leg i (from position i-1 to i) changes latitude or longitude by more
      than the threshold. */
  predicate MovedAt(p: seq<Position>, i: int)
    requires 1 <= i < |p|
  {
    Abs(p[i - 1].lat - p[i].lat) > PositionChangeThreshold ||
    Abs(p[i - 1].lng - p[i].lng) > PositionChangeThreshold
  }

  /** `checkForMovement`: true exactly when some consecutive pair differs by
      more than 0.001 in latitude or longitude, so false on fewer than two
      positions. */
  method CheckForMovement(positions: seq<Position>) returns (moved: bool)
    ensures moved <==> exists i :: 1 <= i < |positions| && MovedAt(positions, i)
    ensures |positions| < 2 ==> !moved
  {
    if |positions| < 2 {
      return false;
    }
    for i := 1 to |positions|
      invariant forall k :: 1 <= k < i ==> !MovedAt(positions, k)
    {
      var latDiff := Abs(positions[i - 1].lat - positions[i].lat);
      var lngDiff := Abs(positions[i - 1].lng - positions[i].lng);
      if latDiff > PositionChangeThreshold || lngDiff > PositionChangeThreshold {
        assert MovedAt(positions, i);
        return true;
      }
    }
    return false;
  }

  // ---------------------------------------------------------------------
  // checkErraticMovement
  // ---------------------------------------------------------------------

  /** `Math.max(...speeds)`. */
  function MaxSpeed(s: seq<Position>): real
    requires s != []
  {
    if |s| == 1 then s[0].speed
    else var m := MaxSpeed(s[1..]); if s[0].speed >= m then s[0].speed else m
  }

  /** `Math.min(...speeds)`. */
  function MinSpeed(s: seq<Position>): real
    requires s != []
  {
    if |s| == 1 then s[0].speed
    else var m := MinSpeed(s[1..]); if s[0].speed <= m then s[0].speed else m
  }

  lemma {:induction false} MaxMinSpeedSpec(s: seq<Position>)
    requires s != []
    ensures forall k :: 0 <= k < |s| ==> MinSpeed(s) <= s[k].speed <= MaxSpeed(s)
    ensures exists k :: 0 <= k < |s| && s[k].speed == MaxSpeed(s)
    ensures exists k :: 0 <= k < |s| && s[k].speed == MinSpeed(s)
  {
    if |s| == 1 {
      assert s[0].speed == MaxSpeed(s) && s[0].speed == MinSpeed(s);
    } else {
      var t := s[1..];
      MaxMinSpeedSpec(t);
      forall k | 0 <= k < |s| ensures MinSpeed(s) <= s[k].speed <= MaxSpeed(s) {
        if k > 0 { assert s[k] == t[k - 1]; }
      }
      if s[0].speed < MaxSpeed(t) {
        var k :| 0 <= k < |t| && t[k].speed == MaxSpeed(t);
        assert s[k + 1] == t[k];
        assert s[k + 1].speed == MaxSpeed(s);
      } else {
        assert s[0].speed == MaxSpeed(s);
      }
      if s[0].speed > MinSpeed(t) {
        var k :| 0 <= k < |t| && t[k].speed == MinSpeed(t);
        assert s[k + 1] == t[k];
        assert s[k + 1].speed == MinSpeed(s);
      } else {
        assert s[0].speed == MinSpeed(s);
      }
    }
  }

  /** The spread of reported speeds exceeds 20 knots exactly when two
      positions' speeds differ by more than 20. */
  lemma SpreadSpec(s: seq<Position>)
    requires s != []
    ensures MaxSpeed(s) - MinSpeed(s) > SpeedSpreadLimit <==>
      exists i, j :: 0 <= i < |s| && 0 <= j < |s| && s[i].speed - s[j].speed > SpeedSpreadLimit
  {
    MaxMinSpeedSpec(s);
  }

  /** Leg i's speed computed from the haversine distance differs from the
      speed reported at its end by more than 15 knots. */
  predicate ImplausibleAt(p: seq<Position>, i: int, implausible: (Position, Position) -> bool)
    requires 1 <= i < |p|
  {
    implausible(p[i - 1], p[i])
  }

  /** `checkErraticMovement`: false on fewer than three positions; otherwise
      true when the reported speeds spread by more than 20 knots, or some
      leg's computed speed is implausible. */
  method CheckErraticMovement(positions: seq<Position>, implausible: (Position, Position) -> bool)
    returns (erratic: bool)
    ensures erratic <==> (|positions| >= 3 &&
      (MaxSpeed(positions) - MinSpeed(positions) > SpeedSpreadLimit ||
       exists i :: 1 <= i < |positions| && ImplausibleAt(positions, i, implausible)))
  {
    if |positions| < 3 {
      return false;
    }
    var speedVariation := MaxSpeed(positions) - MinSpeed(positions);
    if speedVariation > SpeedSpreadLimit {
      return true;
    }
    for i := 1 to |positions|
      invariant forall k :: 1 <= k < i ==> !ImplausibleAt(positions, k, implausible)
    {
      if implausible(positions[i - 1], positions[i]) {
        assert ImplausibleAt(positions, i, implausible);
        return true;
      }
    }
    return false;
  }

  // ---------------------------------------------------------------------
  // analyzeDarkVessel
  // ---------------------------------------------------------------------

  datatype Reason =
    | AisSilent(hours: int)       // "AIS silent for N hours"
    | ZeroSpeedMovement           // "Speed reported as 0 but position changing"
    | ErraticMovement             // "Erratic movement pattern detected"
    | NoAisMatch                  // "No AIS match for previously active vessel"
  {
    /** The order in which the rules run. */
    function Rank(): nat {
      match this
      case AisSilent(_) => 0
      case ZeroSpeedMovement => 1
      case ErraticMovement => 2
      case NoAisMatch => 3
    }
  }

  datatype Analysis = Analysis(
    isDark: bool,
    isSuspicious: bool,
    reasons: seq<Reason>,
    lastTransmissionHours: Option<real>)

  /** Rule 1: more than twelve hours, strictly, since the last AIS message. */
  predicate AisGap(v: Vessel, now: int) {
    v.lastAisTransmission.Some? && now - v.lastAisTransmission.value > TwelveHoursMs
  }

  /** `Math.round` of the gap in hours (halves round up). */
  function SilentHours(v: Vessel, now: int): int
    requires v.lastAisTransmission.Some?
  {
    (now - v.lastAisTransmission.value + HourMs / 2) / HourMs
  }

  /** Rules 2 and 3 need at least two previous positions. */
  predicate HasTrack(v: Vessel) {
    v.previousPositions.Some? && |v.previousPositions.value| >= 2
  }

  /** Rule 2: reported speed 0 while the recent track moves. */
  predicate ZeroSpeedMoving(v: Vessel) {
    HasTrack(v) && v.speed == 0.0 &&
    var r := Recent(v.previousPositions.value);
    exists i :: 1 <= i < |r| && MovedAt(r, i)
  }

  /** Rule 3: the recent track is erratic; with at most three recent
      positions, it needs exactly three. */
  predicate Erratic(v: Vessel, implausible: (Position, Position) -> bool) {
    HasTrack(v) &&
    var r := Recent(v.previousPositions.value);
    |r| >= 3 &&
    (MaxSpeed(r) - MinSpeed(r) > SpeedSpreadLimit ||
     exists i :: 1 <= i < |r| && ImplausibleAt(r, i, implausible))
  }

  /** Rule 4: `aisMatch` is explicitly false and some previous position is
      newer than twelve hours ago. */
  predicate PreviouslyActive(v: Vessel, now: int) {
    v.aisMatch == Some(false) && v.previousPositions.Some? &&
    exists p :: p in v.previousPositions.value && p.timestamp > now - TwelveHoursMs
  }

  function OnlyIf<T>(b: bool, x: T): seq<T> { if b then [x] else [] }

  /** The reasons pushed when the rules fire as given, in rule order. */
  function ReasonsFor(gap: bool, hours: int, zero: bool, erratic: bool, inactive: bool): seq<Reason> {
    OnlyIf(gap, AisSilent(hours)) + OnlyIf(zero, ZeroSpeedMovement) +
    OnlyIf(erratic, ErraticMovement) + OnlyIf(inactive, NoAisMatch)
  }

  /** Strictly increasing rule ranks: rule order, no reason twice. */
  predicate Ranked(r: seq<Reason>) {
    forall i, j :: 0 <= i < j < |r| ==> r[i].Rank() < r[j].Rank()
  }

  predicate RanksAbove(r: seq<Reason>, n: int) {
    forall k :: 0 <= k < |r| ==> r[k].Rank() > n
  }

  lemma PrependRanked(b: bool, x: Reason, t: seq<Reason>)
    requires Ranked(t) && RanksAbove(t, x.Rank())
    ensures Ranked(OnlyIf(b, x) + t) && RanksAbove(OnlyIf(b, x) + t, x.Rank() - 1)
  {
    var r := OnlyIf(b, x) + t;
    if b {
      forall i, j | 0 <= i < j < |r| ensures r[i].Rank() < r[j].Rank() {
        assert r[j] == t[j - 1];
        if i > 0 { assert r[i] == t[i - 1]; }
      }
    }
  }

  /** The reasons are in rule order, each at most once, a silence reason
      first when there is one. */
  lemma ReasonsForRanked(gap: bool, hours: int, zero: bool, erratic: bool, inactive: bool)
    ensures Ranked(ReasonsFor(gap, hours, zero, erratic, inactive))
    ensures gap ==> ReasonsFor(gap, hours, zero, erratic, inactive)[0] == AisSilent(hours)
  {
    var t3 := OnlyIf(inactive, NoAisMatch);
    var t2 := OnlyIf(erratic, ErraticMovement) + t3;
    var t1 := OnlyIf(zero, ZeroSpeedMovement) + t2;
    assert ReasonsFor(gap, hours, zero, erratic, inactive) == OnlyIf(gap, AisSilent(hours)) + t1;
    PrependRanked(erratic, ErraticMovement, t3);
    PrependRanked(zero, ZeroSpeedMovement, t2);
    PrependRanked(gap, AisSilent(hours), t1);
  }

  /** One reason exactly for each rule that fires. */
  lemma ReasonsForMembers(gap: bool, hours: int, zero: bool, erratic: bool, inactive: bool)
    ensures var r := ReasonsFor(gap, hours, zero, erratic, inactive);
      ((exists h :: AisSilent(h) in r) <==> gap) &&
      (ZeroSpeedMovement in r <==> zero) &&
      (ErraticMovement in r <==> erratic) &&
      (NoAisMatch in r <==> inactive) &&
      (r != [] <==> gap || zero || erratic || inactive)
  {
    var a, b := OnlyIf(gap, AisSilent(hours)), OnlyIf(zero, ZeroSpeedMovement);
    var c, d := OnlyIf(erratic, ErraticMovement), OnlyIf(inactive, NoAisMatch);
    var r := ReasonsFor(gap, hours, zero, erratic, inactive);
    assert r == a + b + c + d;
    assert forall y :: y in r <==> y in a || y in b || y in c || y in d;
    if gap {
      assert AisSilent(hours) in r;
    }
  }

  /** What `analyzeDarkVessel` returns at time `now`. */
  function Analyze(v: Vessel, now: int, implausible: (Position, Position) -> bool): Analysis {
    var gap := AisGap(v, now);
    var zero := ZeroSpeedMoving(v);
    var erratic := Erratic(v, implausible);
    var inactive := PreviouslyActive(v, now);
    Analysis(
      gap || inactive || zero || erratic,
      zero || erratic,
      ReasonsFor(gap, if gap then SilentHours(v, now) else 0, zero, erratic, inactive),
      if v.lastAisTransmission.Some? then Some((now - v.lastAisTransmission.value) as real / HourMs as real)
      else None)
  }

  /** The vessel after the call: `previousPositions` sorted newest first in
      place when it has at least two entries, nothing else touched. */
  function Resorted(v: Vessel): Vessel {
    if HasTrack(v) then v.(previousPositions := Some(SortNewestFirst(v.previousPositions.value))) else v
  }

  /** The re-sort changes only the order of the previous positions. */
  lemma ResortedSpec(v: Vessel)
    ensures Resorted(v).previousPositions.Some? <==> v.previousPositions.Some?
    ensures v.previousPositions.Some? ==>
      multiset(Resorted(v).previousPositions.value) == multiset(v.previousPositions.value)
    ensures HasTrack(v) ==> NewestFirst(Resorted(v).previousPositions.value)
    ensures Resorted(v).(previousPositions := v.previousPositions) == v
  {
    if HasTrack(v) {
      SortNewestFirstSpec(v.previousPositions.value);
    }
  }

  /** The reasons are listed in rule order, each at most once; one is given
      exactly for each rule that fires; the vessel is dark exactly when some
      reason is given, and suspicious exactly on rules 2 and 3. A silence
      reason reports at least 12 hours. */
  lemma AnalyzeSpec(v: Vessel, now: int, implausible: (Position, Position) -> bool)
    ensures var a := Analyze(v, now, implausible);
      Ranked(a.reasons) &&
      ((exists h :: AisSilent(h) in a.reasons) <==> AisGap(v, now)) &&
      (ZeroSpeedMovement in a.reasons <==> ZeroSpeedMoving(v)) &&
      (ErraticMovement in a.reasons <==> Erratic(v, implausible)) &&
      (NoAisMatch in a.reasons <==> PreviouslyActive(v, now)) &&
      (a.isDark <==> a.reasons != []) &&
      (a.isSuspicious <==> ZeroSpeedMovement in a.reasons || ErraticMovement in a.reasons) &&
      (AisGap(v, now) ==> a.reasons[0] == AisSilent(SilentHours(v, now)) && SilentHours(v, now) >= 12)
  {
    var gap := AisGap(v, now);
    var h := if gap then SilentHours(v, now) else 0;
    ReasonsForRanked(gap, h, ZeroSpeedMoving(v), Erratic(v, implausible), PreviouslyActive(v, now));
    ReasonsForMembers(gap, h, ZeroSpeedMoving(v), Erratic(v, implausible), PreviouslyActive(v, now));
  }

  /** Rules 2 and 3 of `analyzeDarkVessel`: with at least two previous
      positions, sort them newest first in place and test the three most
      recent for movement at zero speed and for erratic movement. */
  method TrackRules(v: Vessel, implausible: (Position, Position) -> bool)
    returns (after: Vessel, zero: bool, erratic: bool)
    ensures after == Resorted(v)
    ensures zero == ZeroSpeedMoving(v)
    ensures erratic == Erratic(v, implausible)
  {
    after := v;
    zero, erratic := false, false;
    if HasTrack(v) {
      var sorted := SortNewestFirst(v.previousPositions.value);
      after := v.(previousPositions := Some(sorted));
      var recentPositions := sorted[..Min(3, |sorted|)];
      assert recentPositions == Recent(v.previousPositions.value);
      var hasZeroSpeed := v.speed == 0.0;
      var hasMovement := CheckForMovement(recentPositions);
      zero := hasZeroSpeed && hasMovement;
      erratic := CheckErraticMovement(recentPositions, implausible);
    }
  }

  /** `analyzeDarkVessel`: the four rules in order, pushing a reason for each
      that fires; the sort of `previousPositions` happens in place, so the
      vessel comes back re-sorted. */
  method AnalyzeDarkVessel(v: Vessel, now: int, implausible: (Position, Position) -> bool)
    returns (analysis: Analysis, after: Vessel)
    ensures analysis == Analyze(v, now, implausible)
    ensures after == Resorted(v)
  {
    var reasons: seq<Reason> := [];
    var isDark := false;
    var isSuspicious := false;
    after := v;

    if v.lastAisTransmission.Some? {
      var sinceLast := now - v.lastAisTransmission.value;
      if sinceLast > TwelveHoursMs {
        isDark := true;
        reasons := reasons + [AisSilent((sinceLast + HourMs / 2) / HourMs)];
      }
    }

    ghost var gap := AisGap(v, now);
    ghost var hours := if gap then SilentHours(v, now) else 0;
    assert isDark == gap && reasons == OnlyIf(gap, AisSilent(hours));
    var zero, erratic;
    after, zero, erratic := TrackRules(v, implausible);
    if zero {
      isSuspicious := true;
      reasons := reasons + [ZeroSpeedMovement];
    }
    assert reasons == OnlyIf(gap, AisSilent(hours)) + OnlyIf(zero, ZeroSpeedMovement);
    if erratic {
      isSuspicious := true;
      reasons := reasons + [ErraticMovement];
    }
    assert reasons == OnlyIf(gap, AisSilent(hours)) + OnlyIf(zero, ZeroSpeedMovement) + OnlyIf(erratic, ErraticMovement);

    var inactive := NoMatchRule(v, after, now);
    if inactive {
      isDark := true;
      reasons := reasons + [NoAisMatch];
    }
    assert reasons == ReasonsFor(gap, hours, zero, erratic, inactive);

    analysis := Analysis(
      isDark || isSuspicious,
      isSuspicious,
      reasons,
      if v.lastAisTransmission.Some? then Some((now - v.lastAisTransmission.value) as real / HourMs as real)
      else None);
  }

  /** Rule 4 on the re-sorted vessel: no AIS match, a non-empty track, and
      a position newer than twelve hours. */
  method NoMatchRule(v: Vessel, after: Vessel, now: int) returns (inactive: bool)
    requires after == Resorted(v)
    ensures inactive == PreviouslyActive(v, now)
  {
    inactive := false;
    if after.aisMatch == Some(false) && after.previousPositions.Some? && |after.previousPositions.value| > 0 {
      inactive := exists p :: p in after.previousPositions.value && p.timestamp > now - TwelveHoursMs;
    }
    SameTrackActive(v, now);
  }

  /** Rule 4 reads the re-sorted list; the sort loses no position, so the
      answer is the same as on the original one. */
  lemma SameTrackActive(v: Vessel, now: int)
    ensures (Resorted(v).aisMatch == Some(false) && Resorted(v).previousPositions.Some? &&
             exists p :: p in Resorted(v).previousPositions.value && p.timestamp > now - TwelveHoursMs)
            <==> PreviouslyActive(v, now)
  {
    ResortedSpec(v);
    if v.previousPositions.Some? {
      var s, t := v.previousPositions.value, Resorted(v).previousPositions.value;
      forall p ensures p in s <==> p in t {
        assert p in s <==> p in multiset(s);
        assert p in t <==> p in multiset(t);
      }
    }
  }

  // ---------------------------------------------------------------------
  // updateVesselStatus and processVesselsForDarkDetection
  // ---------------------------------------------------------------------

  /** `updateVesselStatus`: the (re-sorted) vessel with its status and
      `suspicious` flag set from the analysis. */
  function UpdateVesselStatus(v: Vessel, now: int, implausible: (Position, Position) -> bool): Vessel {
    var a := Analyze(v, now, implausible);
    var newStatus :=
      if a.isDark then Dark
      else if a.isSuspicious then Alert
      else if v.status == Dark || v.status == Alert then Active
      else v.status;
    Resorted(v).(status := newStatus, suspicious := Some(a.isSuspicious))
  }

  /** A dark verdict sets 'dark'; since every suspicious vessel is also dark,
      the 'alert' branch is never taken and no vessel comes out in 'alert':
      every other vessel becomes (or stays) 'active'. Apart from the sort,
      only the status and `suspicious` change. */
  lemma UpdateVesselStatusSpec(v: Vessel, now: int, implausible: (Position, Position) -> bool)
    ensures var u := UpdateVesselStatus(v, now, implausible);
      var a := Analyze(v, now, implausible);
      (u.status == Dark <==> a.isDark) &&
      (u.status == Active <==> !a.isDark) &&
      u.status != Alert &&
      u.suspicious == Some(a.isSuspicious) &&
      u.(status := v.status, suspicious := v.suspicious) == Resorted(v)
  {
  }

  /** `processVesselsForDarkDetection`: every vessel updated, in order. */
  function ProcessVessels(vessels: seq<Vessel>, now: int, implausible: (Position, Position) -> bool): seq<Vessel> {
    seq(|vessels|, i requires 0 <= i < |vessels| => UpdateVesselStatus(vessels[i], now, implausible))
  }

  /** Length and order are kept: entry i is vessel i (same id) updated, and
      no vessel is left in 'alert'. */
  lemma ProcessVesselsSpec(vessels: seq<Vessel>, now: int, implausible: (Position, Position) -> bool)
    ensures var r := ProcessVessels(vessels, now, implausible);
      |r| == |vessels| &&
      forall i :: 0 <= i < |r| ==>
        r[i].id == vessels[i].id && r[i].status != Alert &&
        r[i] == UpdateVesselStatus(vessels[i], now, implausible)
  {
    var r := ProcessVessels(vessels, now, implausible);
    forall i | 0 <= i < |r| ensures r[i].status != Alert {
      UpdateVesselStatusSpec(vessels[i], now, implausible);
    }
  }

  /** A vessel silent for 13 hours is dark with the single reason "AIS
      silent for 13 hours"; silent for exactly 12 hours it is not. */
  lemma SilenceExamples(v: Vessel)
    requires v.previousPositions == None && v.aisMatch == None
    ensures var a := Analyze(v.(lastAisTransmission := Some(0)), 13 * HourMs, (p, q) => false);
      a.isDark && !a.isSuspicious && a.reasons == [AisSilent(13)]
    ensures var a := Analyze(v.(lastAisTransmission := Some(0)), TwelveHoursMs, (p, q) => false);
      !a.isDark && a.reasons == []
  {
  }
}
