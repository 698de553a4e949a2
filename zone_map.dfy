/** The map view of the dashboard (the mock map shown when no Mapbox token
    is loaded): the SOS banner, zone selection, tourist selection, and the
    colour of each tourist dot, which follows the crowding of its zone. */
module ZoneMap {
  import opened Collections
  import opened JsText
  import opened MockData

  /** The crowding of a zone with `count` tourists: three or more is
      "high", two is "medium", fewer is "low". */
  function Density(count: nat): (r: string)
    ensures r == "high" <==> count >= 3
    ensures r == "medium" <==> count == 2
    ensures r == "low" <==> count < 2
  {
    if count >= 3 then "high"
    else if count >= 2 then "medium"
    else "low"
  }

  /** `calculateDensity(zoneIndex)`: the crowding of the zone at that index. */
  function CalculateDensity(zones: seq<Zone>, zoneIndex: nat): (r: string)
    requires zoneIndex < |zones|
    ensures r in {"high", "medium", "low"}
    ensures r == "high" <==> |zones[zoneIndex].tourists| >= 3
    ensures r == "low" <==> |zones[zoneIndex].tourists| < 2
  {
    Density(|zones[zoneIndex].tourists|)
  }

  /** The order of the crowding levels: low, medium, high. */
  function DensityRank(density: string): nat
  {
    if density == "high" then 2 else if density == "medium" then 1 else 0
  }

  /** More tourists never give a lower crowding level. */
  lemma DensityMonotone(m: nat, n: nat)
    requires m <= n
    ensures DensityRank(Density(m)) <= DensityRank(Density(n))
  {
  }

  /** `getDensityColor`: the status colour for a crowding level; any string
      other than "high" and "medium" is drawn as safe. */
  function DensityColor(density: string): (r: string)
    ensures r in PALETTE && r != "sos"
    ensures r == "risky" <==> density == "high"
    ensures r == "moderate" <==> density == "medium"
    ensures r == "safe" <==> density != "high" && density != "medium"
  {
    if density == "high" then "risky"
    else if density == "medium" then "moderate"
    else "safe"
  }

  /** The colour of a tourist's dot inside a zone marker: pulsing SOS for an
      active SOS, otherwise the zone's crowding colour. */
  function DotColor(t: Tourist, density: string): (r: string)
    ensures r in PALETTE
    ensures r == "sos" <==> IsSos(t)
    ensures !IsSos(t) ==> r == DensityColor(density)
  {
    if IsSos(t) then "sos" else DensityColor(density)
  }

  /** A map dot is drawn as SOS exactly when the zone details list (which
      uses `getTouristStatusColor`) shows that tourist as SOS. */
  lemma DotColorAgreesOnSos(t: Tourist, density: string)
    ensures DotColor(t, density) == "sos" <==> TouristStatusColor(t) == "sos"
  {
  }

  /** The dot colour of a tourist without SOS depends on the zone alone, not
      on the tourist's own risk level: two such tourists in the same zone
      share a colour. */
  lemma DotColorIgnoresRisk(zones: seq<Zone>, i: nat, t: Tourist, u: Tourist)
    requires i < |zones| && !IsSos(t) && !IsSos(u)
    ensures DotColor(t, CalculateDensity(zones, i)) == DotColor(u, CalculateDensity(zones, i))
  {
  }

  /** A zone of three or more tourists draws every tourist without SOS as
      risky, and a zone of one tourist draws it as safe. */
  lemma DotColorByCrowding(zones: seq<Zone>, i: nat, t: Tourist)
    requires i < |zones| && !IsSos(t)
    ensures |zones[i].tourists| >= 3 ==> DotColor(t, CalculateDensity(zones, i)) == "risky"
    ensures |zones[i].tourists| == 2 ==> DotColor(t, CalculateDensity(zones, i)) == "moderate"
    ensures |zones[i].tourists| < 2 ==> DotColor(t, CalculateDensity(zones, i)) == "safe"
  {
  }

  /** The SOS banner: absent when there is no SOS alert, otherwise
      "<n> Active SOS Alert[s] - Immediate Attention Required!" with the
      plural for more than one alert. */
  function SosBanner(alerts: seq<Tourist>): (r: Option<string>)
    ensures r.Some? <==> |alerts| > 0
    ensures r.Some? ==> StartsWith(r.value, DecimalString(|alerts|))
  {
    if |alerts| > 0 then
      Some(DecimalString(|alerts|) + " Active SOS Alert" + (if |alerts| > 1 then "s" else "")
           + " - Immediate Attention Required!")
    else None
  }

  /** `selectedZone?.zoneId === zone.zoneId`: the zone card carries a ring. */
  predicate ZoneHighlighted(selectedZone: Option<Zone>, z: Zone)
  {
    selectedZone.Some? && selectedZone.value.zoneId == z.zoneId
  }

  /** The crowding levels of the seeded zones Z001 to Z005. */
  lemma SeededDensities()
    ensures CalculateDensity(MOCK_ZONES, 0) == "medium"
    ensures CalculateDensity(MOCK_ZONES, 1) == "high"
    ensures CalculateDensity(MOCK_ZONES, 2) == "low"
    ensures CalculateDensity(MOCK_ZONES, 3) == "medium"
    ensures CalculateDensity(MOCK_ZONES, 4) == "medium"
  {
  }

  /** The state of the map view. `derived` is the SOS list computed by the
      mount effect; the banner list only ever loses entries after that. */
  class ZoneMapView {
    var selectedZone: Option<Zone>
    var selectedTourist: Option<Tourist>
    var mapboxToken: string
    var sosAlerts: seq<Tourist>
    ghost var derived: seq<Tourist>

    ghost predicate Valid()
      reads this
    {
      SubseqOf(sosAlerts, derived) && forall t :: t in sosAlerts ==> IsSos(t)
    }

    /** The view before its effect has run: nothing selected, no alerts. */
    constructor ()
      ensures Valid()
      ensures selectedZone == None && selectedTourist == None
      ensures mapboxToken == "" && sosAlerts == []
    {
      selectedZone := None;
      selectedTourist := None;
      mapboxToken := "";
      sosAlerts := [];
      derived := [];
    }

    /** The mount effect: the banner lists every tourist with an active SOS. */
    method LoadSosAlerts(zones: seq<Zone>)
      modifies this`sosAlerts, this`derived
      ensures Valid()
      ensures sosAlerts == SosTourists(AllTourists(zones)) && derived == sosAlerts
      ensures forall t :: t in sosAlerts <==> t in AllTourists(zones) && IsSos(t)
    {
      sosAlerts := SosTourists(AllTourists(zones));
      derived := sosAlerts;
      SubseqRefl(sosAlerts);
    }

    /** `handleZoneClick`: select the zone and close any tourist details. */
    method ZoneClick(z: Zone)
      modifies this`selectedZone, this`selectedTourist
      ensures selectedZone == Some(z) && selectedTourist == None
      ensures forall y :: ZoneHighlighted(selectedZone, y) <==> y.zoneId == z.zoneId
    {
      selectedZone := Some(z);
      selectedTourist := None;
    }

    /** `handleTouristClick`, from a map dot or from the zone details list:
      open that tourist's details and keep the selected zone. */
    method TouristClick(t: Tourist)
      modifies this`selectedTourist
      ensures selectedTourist == Some(t)
    {
      selectedTourist := Some(t);
    }

    /** Closing the tourist details dialog. */
    method CloseTouristDialog()
      modifies this`selectedTourist
      ensures selectedTourist == None
    {
      selectedTourist := None;
    }

    /** Typing a Mapbox token; it is kept but loads nothing. */
    method SetMapboxToken(token: string)
      modifies this`mapboxToken
      ensures mapboxToken == token
    {
      mapboxToken := token;
    }

    /** `dismissAlert`: remove every banner entry with that id; the banner
      keeps listing SOS tourists only, in their original order. */
    method DismissAlert(touristId: string)
      requires Valid()
      modifies this`sosAlerts
      ensures Valid()
      ensures sosAlerts == WithoutId(old(sosAlerts), touristId)
      ensures |sosAlerts| <= |old(sosAlerts)|
      ensures forall t :: t in sosAlerts ==> t.id != touristId
    {
      WithoutIdKeepsOthers(sosAlerts, touristId);
      SubseqTrans(WithoutId(sosAlerts, touristId), sosAlerts, derived);
      sosAlerts := WithoutId(sosAlerts, touristId);
    }

    /** The banner shown for the current alert list. */
    function Banner(): (r: Option<string>)
      reads this
      ensures r.Some? <==> |sosAlerts| > 0
    {
      SosBanner(sosAlerts)
    }
  }
}
