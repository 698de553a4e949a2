/** The dashboard's records, its colour helpers, the statistics behind the
    reports view, and the seeded dataset (five zones, ten tourists, two
    officers). Colours are the CSS suffixes the views use ("safe",
    "moderate", "risky", "sos"); geographic coordinates and radii are not
    modelled. */
module MockData {
  import opened Collections

  datatype RiskLevel = Low | Moderate | High

  datatype ZoneStatus = Safe | Moderate | Risky

  /** A tracked visitor. Optional fields are `None` when the record omits them;
      an omitted `sosActive` reads as false. */
  datatype Tourist = Tourist(
    id: string,
    name: string,
    riskLevel: RiskLevel,
    idIssued: bool,
    blockchainId: Option<string>,
    sosActive: Option<bool>,
    nationality: Option<string>,
    emergencyContact: Option<string>,
    itinerary: Option<string>,
    safetyScore: Option<int>,
    lastActiveTime: Option<string>)

  datatype Zone = Zone(
    zoneId: string,
    name: string,
    status: ZoneStatus,
    tourists: seq<Tourist>,
    nearbyHelpCenters: seq<string>)

  datatype Officer = Officer(id: string, name: string, email: string, deptId: string, role: string)

  /** The colours a tourist or zone can be drawn in. */
  const PALETTE: set<string> := {"safe", "moderate", "risky", "sos"}

  /** The tourist's SOS flag is set (an absent flag is false). */
  predicate IsSos(t: Tourist)
  {
    t.sosActive == Some(true)
  }

  /** No blockchain identity has been issued to the tourist. */
  predicate IsUnregistered(t: Tourist)
  {
    !t.idIssued
  }

  function TouristId(t: Tourist): string
  {
    t.id
  }

  function OfficerEmail(o: Officer): string
  {
    o.email
  }

  /** The status name as the source spells it. */
  function StatusName(s: ZoneStatus): string
  {
    match s
    case Safe => "Safe"
    case Moderate => "Moderate"
    case Risky => "Risky"
  }

  /** `getTouristStatusColor`: SOS overrides everything, otherwise the risk
      level picks the colour. */
  function TouristStatusColor(t: Tourist): (r: string)
    ensures r in PALETTE
    ensures r == "sos" <==> IsSos(t)
    ensures !IsSos(t) ==>
      (r == "safe" <==> t.riskLevel == RiskLevel.Low) &&
      (r == "moderate" <==> t.riskLevel == RiskLevel.Moderate) &&
      (r == "risky" <==> t.riskLevel == RiskLevel.High)
  {
    if IsSos(t) then "sos"
    else match t.riskLevel
      case Low => "safe"
      case Moderate => "moderate"
      case High => "risky"
  }

  /** `getZoneStatusColor`: it takes any string; the three status names get
      their colours and every other string gets "safe". */
  function ZoneStatusColor(status: string): (r: string)
    ensures r in PALETTE && r != "sos"
    ensures r == "moderate" <==> status == "Moderate"
    ensures r == "risky" <==> status == "Risky"
    ensures r == "safe" <==> status != "Moderate" && status != "Risky"
  {
    if status == "Safe" then "safe"
    else if status == "Moderate" then "moderate"
    else if status == "Risky" then "risky"
    else "safe"
  }

  /** A zone's colour never says SOS, and distinct statuses get distinct colours. */
  lemma ZoneColorsDistinct(a: ZoneStatus, b: ZoneStatus)
    ensures ZoneStatusColor(StatusName(a)) != "sos"
    ensures ZoneStatusColor(StatusName(a)) == ZoneStatusColor(StatusName(b)) <==> a == b
  {
  }

  /** `zones.flatMap(zone => zone.tourists)`. */
  function AllTourists(zones: seq<Zone>): (r: seq<Tourist>)
    ensures |r| == TouristCount(zones)
    ensures forall t :: t in r <==> exists z :: z in zones && t in z.tourists
  {
    if zones == [] then []
    else zones[0].tourists + AllTourists(zones[1..])
  }

  /** The sum of the zones' tourist-list lengths. */
  function TouristCount(zones: seq<Zone>): nat
  {
    if zones == [] then 0 else |zones[0].tourists| + TouristCount(zones[1..])
  }

  /** Flattening keeps the zones' order: the tourists of earlier zones come first. */
  lemma {:induction false} AllTouristsConcat(a: seq<Zone>, b: seq<Zone>)
    ensures AllTourists(a + b) == AllTourists(a) + AllTourists(b)
  {
    if a == [] {
      assert a + b == b;
    } else {
      assert (a + b)[1..] == a[1..] + b;
      AllTouristsConcat(a[1..], b);
    }
  }

  /** The tourists with an active SOS, in order (shared by both alert views). */
  function SosTourists(ts: seq<Tourist>): (r: seq<Tourist>)
    ensures forall t :: t in r <==> t in ts && IsSos(t)
  {
    Filter(IsSos, ts)
  }

  /** `list.filter(t => t.id !== id)`: acknowledging or dismissing an alert. */
  function WithoutId(ts: seq<Tourist>, id: string): (r: seq<Tourist>)
    ensures forall t :: t in r <==> t in ts && t.id != id
  {
    Filter((t: Tourist) => t.id != id, ts)
  }

  /** Removing an id keeps every other entry, with its multiplicity, in the
      original order. */
  lemma WithoutIdKeepsOthers(ts: seq<Tourist>, id: string)
    ensures SubseqOf(WithoutId(ts, id), ts)
    ensures forall t: Tourist :: t.id != id ==> multiset(WithoutId(ts, id))[t] == multiset(ts)[t]
  {
    FilterIsSubseq((t: Tourist) => t.id != id, ts);
    forall t: Tourist | t.id != id
      ensures multiset(WithoutId(ts, id))[t] == multiset(ts)[t]
    {
      FilterMultiplicity((t: Tourist) => t.id != id, ts, t);
    }
  }

  /** Removing an id that is not in the list changes nothing, so removing the
      same id twice is removing it once. */
  lemma WithoutIdAbsent(ts: seq<Tourist>, id: string)
    ensures (forall t :: t in ts ==> t.id != id) ==> WithoutId(ts, id) == ts
    ensures WithoutId(WithoutId(ts, id), id) == WithoutId(ts, id)
  {
    if forall t :: t in ts ==> t.id != id {
      FilterKeepsAll((t: Tourist) => t.id != id, ts);
    }
    FilterKeepsAll((t: Tourist) => t.id != id, WithoutId(ts, id));
  }

  // ---------------------------------------------------------------------
  // Statistics (getStatisticsData without the fixed activity series)

  datatype ZoneCount = ZoneCount(name: string, tourists: nat, status: ZoneStatus)

  datatype RiskSlice = RiskSlice(name: string, value: nat, color: string)

  /** `averageSafetyScore` is `None` where the source computes NaN (no tourists). */
  datatype Statistics = Statistics(
    touristsByZone: seq<ZoneCount>,
    riskDistribution: seq<RiskSlice>,
    totalTourists: nat,
    activeSOS: nat,
    unregisteredTourists: nat,
    averageSafetyScore: Option<int>)

  /** `t.safetyScore || 0`. */
  function ScoreOrZero(t: Tourist): int
  {
    match t.safetyScore
    case None => 0
    case Some(s) => s
  }

  /** `reduce((acc, t) => acc + (t.safetyScore || 0), 0)`. */
  function SumScores(ts: seq<Tourist>): int
  {
    if ts == [] then 0 else ScoreOrZero(ts[0]) + SumScores(ts[1..])
  }

  /** The score sum of a joined list is the sum of the parts' sums. */
  lemma {:induction false} SumScoresConcat(a: seq<Tourist>, b: seq<Tourist>)
    ensures SumScores(a + b) == SumScores(a) + SumScores(b)
  {
    if a == [] {
      assert a + b == b;
    } else {
      assert (a + b)[1..] == a[1..] + b;
      SumScoresConcat(a[1..], b);
    }
  }

  /** `Math.round(sum / n)`: the integer nearest to sum/n, halves rounded up;
      `None` (NaN) when `n` is zero. */
  function RoundedMean(sum: int, n: nat): (r: Option<int>)
    ensures r.Some? <==> n > 0
    ensures r.Some? ==> 2 * n * r.value - n <= 2 * sum < 2 * n * r.value + n
  {
    if n == 0 then None
    else
      var q := (2 * sum + n) / (2 * n);
      assert 2 * n * q <= 2 * sum + n < 2 * n * q + 2 * n;
      Some(q)
  }

  /** The zone test `z => z.status === s`. */
  function HasStatus(s: ZoneStatus): Zone -> bool
  {
    (z: Zone) => z.status == s
  }

  /** `zones.filter(z => z.status === s).length`. */
  function StatusCount(zones: seq<Zone>, s: ZoneStatus): nat
  {
    |Filter(HasStatus(s), zones)|
  }

  /** Every zone falls in exactly one status bucket. */
  lemma {:induction false} StatusCountsCoverZones(zones: seq<Zone>)
    ensures StatusCount(zones, Safe) + StatusCount(zones, ZoneStatus.Moderate)
            + StatusCount(zones, Risky) == |zones|
  {
    if zones != [] {
      StatusCountsCoverZones(zones[1..]);
    }
  }

  /** `getStatisticsData` over the given zones. */
  function GetStatisticsData(zones: seq<Zone>): (r: Statistics)
    ensures |r.touristsByZone| == |zones|
    ensures forall i :: 0 <= i < |zones| ==>
      r.touristsByZone[i].name == zones[i].name &&
      r.touristsByZone[i].tourists == |zones[i].tourists| &&
      r.touristsByZone[i].status == zones[i].status
    ensures |r.riskDistribution| == 3
    ensures r.riskDistribution[0].value + r.riskDistribution[1].value
            + r.riskDistribution[2].value == |zones|
    ensures r.totalTourists == TouristCount(zones)
    ensures r.riskDistribution[0] == RiskSlice("Safe Zones", StatusCount(zones, Safe), "#22c55e")
    ensures r.riskDistribution[1] == RiskSlice("Moderate Risk", StatusCount(zones, ZoneStatus.Moderate), "#f59e0b")
    ensures r.riskDistribution[2] == RiskSlice("High Risk", StatusCount(zones, Risky), "#ef4444")
    ensures r.activeSOS == |SosTourists(AllTourists(zones))|
    ensures r.unregisteredTourists == |Filter(IsUnregistered, AllTourists(zones))|
    ensures r.activeSOS <= r.totalTourists && r.unregisteredTourists <= r.totalTourists
    ensures r.averageSafetyScore == RoundedMean(SumScores(AllTourists(zones)), r.totalTourists)
    ensures r.averageSafetyScore.Some? <==> r.totalTourists > 0
  {
    var all := AllTourists(zones);
    StatusCountsCoverZones(zones);
    Statistics(
      seq(|zones|, i requires 0 <= i < |zones| =>
        ZoneCount(zones[i].name, |zones[i].tourists|, zones[i].status)),
      [ RiskSlice("Safe Zones", StatusCount(zones, Safe), "#22c55e"),
        RiskSlice("Moderate Risk", StatusCount(zones, ZoneStatus.Moderate), "#f59e0b"),
        RiskSlice("High Risk", StatusCount(zones, Risky), "#ef4444") ],
      |all|,
      |SosTourists(all)|,
      |Filter(IsUnregistered, all)|,
      RoundedMean(SumScores(all), |all|))
  }

  /** Scores within [0, 100] sum to at most 100 per tourist. */
  lemma {:induction false} SumScoresBounds(ts: seq<Tourist>)
    requires forall t :: t in ts ==> 0 <= ScoreOrZero(t) <= 100
    ensures 0 <= SumScores(ts) <= 100 * |ts|
  {
    if ts != [] {
      SumScoresBounds(ts[1..]);
    }
  }

  /** Multiplying by a non-negative factor keeps the order. */
  lemma MulMonotone(a: int, b: int, c: nat)
    requires a <= b
    ensures c * a <= c * b
  {
  }

  /** A mean of values in [lo, hi], rounded, stays in [lo, hi]. */
  lemma RoundedMeanBounds(sum: int, n: nat, lo: int, hi: int)
    requires n > 0 && lo * n <= sum <= hi * n
    ensures lo <= RoundedMean(sum, n).value <= hi
  {
    var r := RoundedMean(sum, n).value;
    if r > hi {
      MulMonotone(hi + 1, r, 2 * n);
    }
    if r < lo {
      MulMonotone(r, lo - 1, 2 * n);
    }
  }

  /** With every score in [0, 100] and at least one tourist, the rounded
      average score lies in [0, 100]. */
  lemma AverageScoreInRange(zones: seq<Zone>)
    requires TouristCount(zones) > 0
    requires forall t :: t in AllTourists(zones) ==> 0 <= ScoreOrZero(t) <= 100
    ensures GetStatisticsData(zones).averageSafetyScore.Some?
    ensures 0 <= GetStatisticsData(zones).averageSafetyScore.value <= 100
  {
    var all := AllTourists(zones);
    SumScoresBounds(all);
    RoundedMeanBounds(SumScores(all), |all|, 0, 100);
  }

  // ---------------------------------------------------------------------
  // The seeded dataset

  const MOCK_OFFICERS: seq<Officer> := [
    Officer("OFF001", "Officer Rajesh Kumar", "rajesh.kumar@tourism.gov.in", "TOUR-DEL-001", "Senior Safety Officer"),
    Officer("OFF002", "Officer Priya Sharma", "priya.sharma@tourism.gov.in", "TOUR-DEL-002", "Zone Coordinator")
  ]

  const T001 := Tourist("T001", "Alice Kumar", RiskLevel.Low, true, Some("bc_0x1234SAFE"), None,
    Some("India"), Some("+91-9876543210"), Some("Delhi Heritage Tour - 3 days"), Some(95), Some("5 minutes ago"))
  const T002 := Tourist("T002", "Raj Verma", RiskLevel.Low, true, Some("bc_0x1234SAFE2"), None,
    Some("India"), Some("+91-9876543211"), Some("Red Fort & India Gate Visit"), Some(92), Some("3 minutes ago"))
  const T003 := Tourist("T003", "Fatima Sheikh", RiskLevel.High, true, Some("bc_0xRISKY001"), Some(true),
    Some("UAE"), Some("+971-501234567"), Some("Yamuna River Cruise"), Some(45), Some("1 minute ago"))
  const T004 := Tourist("T004", "John Mathew", RiskLevel.High, false, None, None,
    Some("USA"), Some("+1-555-0123"), Some("Independent Travel"), Some(60), Some("8 minutes ago"))
  const T005 := Tourist("T005", "Mei Lin", RiskLevel.Moderate, true, Some("bc_0xRISKY002"), None,
    Some("China"), Some("+86-138-0013-8000"), Some("Cultural Heritage Tour"), Some(75), Some("12 minutes ago"))
  const T006 := Tourist("T006", "Carlos Rivera", RiskLevel.Moderate, true, Some("bc_0xMUSEUM001"), None,
    Some("Spain"), Some("+34-600-123-456"), Some("Museum & Art Gallery Tour"), Some(82), Some("15 minutes ago"))
  const T007 := Tourist("T007", "Ananya Gupta", RiskLevel.High, false, None, Some(false),
    Some("India"), Some("+91-9876543212"), Some("Rajasthan Desert Experience"), Some(55), Some("25 minutes ago"))
  const T008 := Tourist("T008", "Michael Brown", RiskLevel.High, true, Some("bc_0xDESERT001"), Some(true),
    Some("UK"), Some("+44-7911-123456"), Some("Adventure Desert Safari"), Some(40), Some("2 minutes ago"))
  const T009 := Tourist("T009", "Sophia Lee", RiskLevel.Low, true, Some("bc_0xBEACH001"), None,
    Some("South Korea"), Some("+82-10-1234-5678"), Some("Goa Beach Holiday"), Some(90), Some("10 minutes ago"))
  const T010 := Tourist("T010", "Arjun Singh", RiskLevel.Low, true, Some("bc_0xBEACH002"), None,
    Some("India"), Some("+91-9876543213"), Some("Water Sports & Beach Activities"), Some(88), Some("7 minutes ago"))

  const MOCK_ZONES: seq<Zone> := [
    Zone("Z001", "Hilltop View", Safe, [T001, T002], ["Police Outpost A", "Tourist Control Room North"]),
    Zone("Z002", "Riverfront", Risky, [T003, T004, T005], ["Police HQ South", "First Aid Center"]),
    Zone("Z003", "City Museum", ZoneStatus.Moderate, [T006], ["Museum Security Desk", "Tourist Helpline Booth"]),
    Zone("Z004", "Desert Safari Point", Risky, [T007, T008], ["Tourist Patrol Camp", "Emergency First Response Tent"]),
    Zone("Z005", "Beachfront", Safe, [T009, T010], ["Beach Police Station", "Lifeguard Center"])
  ]

  /** The seeded dataset's tourists, in zone order. */
  lemma SeededTourists()
    ensures AllTourists(MOCK_ZONES) == [T001, T002, T003, T004, T005, T006, T007, T008, T009, T010]
  {
    var z := MOCK_ZONES;
    assert AllTourists(z[4..]) == [T009, T010] by { assert z[4..][1..] == []; }
    assert AllTourists(z[3..]) == [T007, T008, T009, T010] by { assert z[3..][1..] == z[4..]; }
    assert AllTourists(z[2..]) == [T006, T007, T008, T009, T010] by { assert z[2..][1..] == z[3..]; }
    assert AllTourists(z[1..]) == [T003, T004, T005, T006, T007, T008, T009, T010] by { assert z[1..][1..] == z[2..]; }
  }

  /** The seeded tourist ids and officer emails are unique. */
  lemma SeededKeysUnique()
    ensures KeysUnique(AllTourists(MOCK_ZONES), TouristId)
    ensures KeysUnique(MOCK_OFFICERS, OfficerEmail)
  {
    SeededTourists();
  }

  /** One step of the score sum on a list given element by element. */
  lemma SumScoresCons(x: Tourist, s: seq<Tourist>)
    ensures SumScores([x] + s) == ScoreOrZero(x) + SumScores(s)
  {
    assert ([x] + s)[1..] == s;
  }

  /** The seeded SOS tourists are T003 and T008. */
  lemma SeededSos()
    ensures Filter(IsSos, AllTourists(MOCK_ZONES)) == [T003, T008]
  {
    SeededTourists();
    FilterCons(IsSos, T010, []);
    FilterCons(IsSos, T009, [T010]);
    FilterCons(IsSos, T008, [T009, T010]);
    FilterCons(IsSos, T007, [T008, T009, T010]);
    FilterCons(IsSos, T006, [T007, T008, T009, T010]);
    FilterCons(IsSos, T005, [T006, T007, T008, T009, T010]);
    FilterCons(IsSos, T004, [T005, T006, T007, T008, T009, T010]);
    FilterCons(IsSos, T003, [T004, T005, T006, T007, T008, T009, T010]);
    FilterCons(IsSos, T002, [T003, T004, T005, T006, T007, T008, T009, T010]);
    FilterCons(IsSos, T001, [T002, T003, T004, T005, T006, T007, T008, T009, T010]);
  }

  /** The seeded unregistered tourists are T004 and T007. */
  lemma SeededUnregistered()
    ensures Filter(IsUnregistered, AllTourists(MOCK_ZONES)) == [T004, T007]
  {
    SeededTourists();
    FilterCons(IsUnregistered, T010, []);
    FilterCons(IsUnregistered, T009, [T010]);
    FilterCons(IsUnregistered, T008, [T009, T010]);
    FilterCons(IsUnregistered, T007, [T008, T009, T010]);
    FilterCons(IsUnregistered, T006, [T007, T008, T009, T010]);
    FilterCons(IsUnregistered, T005, [T006, T007, T008, T009, T010]);
    FilterCons(IsUnregistered, T004, [T005, T006, T007, T008, T009, T010]);
    FilterCons(IsUnregistered, T003, [T004, T005, T006, T007, T008, T009, T010]);
    FilterCons(IsUnregistered, T002, [T003, T004, T005, T006, T007, T008, T009, T010]);
    FilterCons(IsUnregistered, T001, [T002, T003, T004, T005, T006, T007, T008, T009, T010]);
  }

  /** The seeded scores sum to 722. */
  lemma SeededScoreSum()
    ensures SumScores(AllTourists(MOCK_ZONES)) == 722
  {
    SeededTourists();
    SumScoresCons(T010, []);
    SumScoresCons(T009, [T010]);
    SumScoresCons(T008, [T009, T010]);
    SumScoresCons(T007, [T008, T009, T010]);
    SumScoresCons(T006, [T007, T008, T009, T010]);
    SumScoresCons(T005, [T006, T007, T008, T009, T010]);
    SumScoresCons(T004, [T005, T006, T007, T008, T009, T010]);
    SumScoresCons(T003, [T004, T005, T006, T007, T008, T009, T010]);
    SumScoresCons(T002, [T003, T004, T005, T006, T007, T008, T009, T010]);
    SumScoresCons(T001, [T002, T003, T004, T005, T006, T007, T008, T009, T010]);
  }

  /** One zone of the seeded status counts. */
  lemma StatusCountCons(z: Zone, zs: seq<Zone>, s: ZoneStatus)
    ensures StatusCount([z] + zs, s) == (if z.status == s then 1 else 0) + StatusCount(zs, s)
  {
    FilterCons(HasStatus(s), z, zs);
  }

  /** The seeded zone statuses: two safe, one moderate, two risky. */
  lemma SeededStatusCounts()
    ensures StatusCount(MOCK_ZONES, Safe) == 2
    ensures StatusCount(MOCK_ZONES, ZoneStatus.Moderate) == 1
    ensures StatusCount(MOCK_ZONES, Risky) == 2
  {
    var z := MOCK_ZONES;
    forall s: ZoneStatus
      ensures StatusCount(z, s) == |Filter(HasStatus(s), [z[0], z[1], z[2], z[3], z[4]])|
    {
      assert z == [z[0], z[1], z[2], z[3], z[4]];
    }
    forall s: ZoneStatus
      ensures StatusCount(z, s) == (if z[0].status == s then 1 else 0) + (if z[1].status == s then 1 else 0)
        + (if z[2].status == s then 1 else 0) + (if z[3].status == s then 1 else 0) + (if z[4].status == s then 1 else 0)
    {
      StatusCountCons(z[4], [], s);
      StatusCountCons(z[3], [z[4]], s);
      StatusCountCons(z[2], [z[3], z[4]], s);
      StatusCountCons(z[1], [z[2], z[3], z[4]], s);
      StatusCountCons(z[0], [z[1], z[2], z[3], z[4]], s);
    }
  }

  /** The reports view on the seeded data: ten tourists, two SOS (T003, T008),
      two unregistered (T004, T007), average score 72 (722 / 10 rounded),
      and 2 safe, 1 moderate and 2 risky zones. */
  lemma SeededStatistics()
    ensures GetStatisticsData(MOCK_ZONES).totalTourists == 10
    ensures GetStatisticsData(MOCK_ZONES).activeSOS == 2
    ensures GetStatisticsData(MOCK_ZONES).unregisteredTourists == 2
    ensures GetStatisticsData(MOCK_ZONES).averageSafetyScore == Some(72)
    ensures GetStatisticsData(MOCK_ZONES).riskDistribution[0].value == 2
    ensures GetStatisticsData(MOCK_ZONES).riskDistribution[1].value == 1
    ensures GetStatisticsData(MOCK_ZONES).riskDistribution[2].value == 2
  {
    SeededTourists();
    SeededSos();
    SeededUnregistered();
    SeededScoreSum();
    SeededStatusCounts();
  }
}
