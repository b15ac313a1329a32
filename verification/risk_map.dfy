/** The integer and threshold parts of the map page's mock data layers and side panel
    (src/pages/RiskMap.jsx). Every random draw enters as an already-rounded integer. */
module RiskMap {
  import opened Wrappers
  import opened Zones
  import Strings
  import Numeric
  import Sorting

  /** `z.risk >= t`. A missing risk compares as false against any threshold. */
  predicate RiskAtLeast(z: Zone, t: int) {
    z.risk.Some? && z.risk.value >= t
  }

  // ---------- Air quality and vegetation ----------

  datatype AirQuality = AirQuality(zoneId: string, aqi: Option<int>, advisory: string)

  datatype Ndvi = Ndvi(zoneId: string, vegetation: string)

  const UNHEALTHY := "Unhealthy – smoke likely"
  const SENSITIVE := "Moderate – sensitive groups"
  const GOOD := "Good – low particulate"

  function Advisory(z: Zone): string {
    if RiskAtLeast(z, 80) then UNHEALTHY
    else if RiskAtLeast(z, 60) then SENSITIVE
    else GOOD
  }

  const STRESSED := "Stressed / Dry fuels"
  const MIXED := "Mixed condition"
  const HEALTHY := "Healthy canopy"

  function Vegetation(z: Zone): string {
    if RiskAtLeast(z, 80) then STRESSED
    else if RiskAtLeast(z, 60) then MIXED
    else HEALTHY
  }

  /** The air-quality entry of one zone. `rawAqi` is `Math.round(40 + risk * 2.2 + noise)`;
      without a risk that expression is NaN, modelled as `None`. */
  function AirQualityOf(z: Zone, rawAqi: int): (a: AirQuality)
    ensures a.zoneId == z.id
    ensures a.aqi.Some? <==> z.risk.Some?
    ensures a.aqi.Some? ==> 0 <= a.aqi.value <= 500
    ensures a.aqi.Some? ==> a.aqi.value == Numeric.Clamp(rawAqi, 0, 500)
    ensures a.advisory == Advisory(z)
  {
    AirQuality(z.id, if z.risk.Some? then Some(Numeric.Clamp(rawAqi, 0, 500)) else None,
               Advisory(z))
  }

  // ---------- Hotspots ----------

  datatype Hotspot = Hotspot(id: string, zoneId: string)

  /** 5 hotspots for a risk of 80 or more, 3 from 60, otherwise 1. */
  function HotspotCount(z: Zone): (n: nat)
    ensures 1 <= n <= 5
    ensures n == 5 <==> RiskAtLeast(z, 80)
    ensures n == 3 <==> RiskAtLeast(z, 60) && !RiskAtLeast(z, 80)
    ensures n == 1 <==> !RiskAtLeast(z, 60)
  {
    if RiskAtLeast(z, 80) then 5 else if RiskAtLeast(z, 60) then 3 else 1
  }

  /** `${zoneId}-hs-${i}`. */
  function HotspotId(zoneId: string, i: nat): string {
    zoneId + "-hs-" + Strings.NatToString(i)
  }

  function HotspotsOf(z: Zone): (hs: seq<Hotspot>)
    ensures |hs| == HotspotCount(z)
    ensures forall i :: 0 <= i < |hs| ==> hs[i] == Hotspot(HotspotId(z.id, i), z.id)
  {
    seq(HotspotCount(z), i requires 0 <= i => Hotspot(HotspotId(z.id, i), z.id))
  }

  /** `zones.flatMap(...)`: each zone's hotspots, zone by zone. */
  function Hotspots(zones: seq<Zone>): seq<Hotspot> {
    if |zones| == 0 then [] else HotspotsOf(zones[0]) + Hotspots(zones[1..])
  }

  function TotalHotspots(zones: seq<Zone>): nat {
    if |zones| == 0 then 0 else HotspotCount(zones[0]) + TotalHotspots(zones[1..])
  }

  predicate DistinctIds(zones: seq<Zone>) {
    forall i, j :: 0 <= i < j < |zones| ==> zones[i].id != zones[j].id
  }

  /** Every hotspot id has the shape `${zoneId}-hs-${i}` for its own zone. */
  ghost predicate NamedAfterZone(h: Hotspot) {
    exists k: nat :: h.id == HotspotId(h.zoneId, k)
  }

  lemma {:induction false} HotspotsShape(zones: seq<Zone>)
    ensures |Hotspots(zones)| == TotalHotspots(zones)
    ensures forall h :: h in Hotspots(zones) ==> NamedAfterZone(h)
    ensures forall h :: h in Hotspots(zones) ==> exists i :: 0 <= i < |zones| && h.zoneId == zones[i].id
  {
    if |zones| > 0 {
      HotspotsShape(zones[1..]);
      var b := HotspotsOf(zones[0]);
      forall h | h in b
        ensures NamedAfterZone(h) && h.zoneId == zones[0].id
      {
        var k :| 0 <= k < |b| && b[k] == h;
        assert h.id == HotspotId(h.zoneId, k);
      }
      forall h | h in Hotspots(zones[1..])
        ensures exists i :: 0 <= i < |zones| && h.zoneId == zones[i].id
      {
        var i :| 0 <= i < |zones[1..]| && h.zoneId == zones[1..][i].id;
        assert h.zoneId == zones[i + 1].id;
      }
    }
  }

  /** A hotspot id determines its zone and its number. */
  lemma HotspotIdUnique(z1: string, i: nat, z2: string, j: nat)
    ensures HotspotId(z1, i) == HotspotId(z2, j) ==> z1 == z2 && i == j
  {
    var a, b := z1 + "-hs-", z2 + "-hs-";
    assert HotspotId(z1, i) == a + Strings.NatToString(i);
    assert HotspotId(z2, j) == b + Strings.NatToString(j);
    Strings.NumberedIdUnique(a, i, b, j);
    if a == b {
      assert z1 == a[..|a| - 4] == b[..|b| - 4] == z2;
    }
  }

  /** With distinct zone ids, every hotspot on the map has a distinct id (React keys them by
      it). */
  lemma {:induction false} HotspotIdsDistinct(zones: seq<Zone>)
    requires DistinctIds(zones)
    ensures var hs := Hotspots(zones);
      forall i, j :: 0 <= i < j < |hs| ==> hs[i].id != hs[j].id
  {
    if |zones| > 0 {
      var b := HotspotsOf(zones[0]);
      var rest := Hotspots(zones[1..]);
      assert DistinctIds(zones[1..]);
      HotspotIdsDistinct(zones[1..]);
      HotspotsShape(zones[1..]);
      var hs := b + rest;
      forall i, j | 0 <= i < j < |hs|
        ensures hs[i].id != hs[j].id
      {
        if j < |b| {
          HotspotIdUnique(zones[0].id, i, zones[0].id, j);
        } else if i < |b| {
          var h := hs[j];
          assert h in rest;
          var k: nat :| h.id == HotspotId(h.zoneId, k);
          var m :| 0 <= m < |zones[1..]| && h.zoneId == zones[1..][m].id;
          assert h.zoneId == zones[m + 1].id != zones[0].id;
          HotspotIdUnique(zones[0].id, i, h.zoneId, k);
        } else {
          assert hs[i] == rest[i - |b|] && hs[j] == rest[j - |b|];
        }
      }
    }
  }

  // ---------- Past fires ----------

  datatype PastFire = PastFire(id: string, zoneId: string, year: int, acres: int)

  const PAST_FIRE_MIN_RISK := 55

  /** The footprint of one qualifying zone: `acres = Math.round(8000 + risk * 260)`, which is
      already an integer. */
  function PastFireOf(z: Zone): (f: PastFire)
    requires RiskAtLeast(z, PAST_FIRE_MIN_RISK)
    ensures f.zoneId == z.id && f.year == 2023
    ensures f.acres == 8000 + 260 * z.risk.value && f.acres >= 22300
  {
    PastFire("pf-" + z.id, z.id, 2023, 8000 + z.risk.value * 260)
  }

  /** `zones.filter((z) => z.risk >= 55).map(...)`. */
  function PastFires(zones: seq<Zone>): seq<PastFire> {
    if |zones| == 0 then []
    else if RiskAtLeast(zones[0], PAST_FIRE_MIN_RISK) then [PastFireOf(zones[0])] + PastFires(zones[1..])
    else PastFires(zones[1..])
  }

  // ---------- AI prediction ----------

  datatype Prediction = Prediction(
    zoneId: string,
    now: Option<int>,
    next24h: Option<int>,
    delta: int,
    confidence: int,
    drivers: seq<string>)

  function LeadDriver(z: Zone): string {
    if RiskAtLeast(z, 80) then "Wind + Dry fuels"
    else if RiskAtLeast(z, 60) then "Low humidity"
    else "Seasonal baseline"
  }

  /** The prediction for one zone. `delta` is `Math.round((Math.random() - 0.35) * 18)` and
      `rawConfidence` is `Math.round(72 + Math.random() * 22)`; any integers are accepted. A
      missing risk makes `risk + delta` NaN, modelled as `None`. */
  function PredictionOf(z: Zone, delta: int, rawConfidence: int): (p: Prediction)
    ensures p.zoneId == z.id && p.now == z.risk && p.delta == delta
    ensures p.next24h.Some? <==> z.risk.Some?
    ensures p.next24h.Some? ==> 1 <= p.next24h.value <= 99
    ensures z.risk.Some? && 1 <= z.risk.value + delta <= 99 ==> p.next24h == Some(z.risk.value + delta)
    ensures z.risk.Some? ==> p.next24h == Some(Numeric.Clamp(z.risk.value + delta, 1, 99))
    ensures 60 <= p.confidence <= 95
    ensures p.confidence == Numeric.Clamp(rawConfidence, 60, 95)
    ensures |p.drivers| == 3 && p.drivers[0] == LeadDriver(z)
  {
    Prediction(
      z.id, z.risk,
      if z.risk.Some? then Some(Numeric.Clamp(z.risk.value + delta, 1, 99)) else None,
      delta,
      Numeric.Clamp(rawConfidence, 60, 95),
      [LeadDriver(z), "Vegetation stress (NDVI)", "Recent heat anomalies"])
  }

  /** The three labels change at the same thresholds as the Extreme and High levels. */
  lemma LabelsFollowLevels(z: Zone)
    requires z.risk.Some?
    ensures Advisory(z) == UNHEALTHY <==> ScoreToLevel(z.risk.value) == Extreme
    ensures Advisory(z) == SENSITIVE <==> ScoreToLevel(z.risk.value) == High
    ensures Advisory(z) == GOOD <==> ScoreToLevel(z.risk.value).Rank() <= Moderate.Rank()
    ensures Vegetation(z) == STRESSED <==> ScoreToLevel(z.risk.value) == Extreme
    ensures Vegetation(z) == MIXED <==> ScoreToLevel(z.risk.value) == High
    ensures LeadDriver(z) == "Wind + Dry fuels" <==> ScoreToLevel(z.risk.value) == Extreme
    ensures LeadDriver(z) == "Low humidity" <==> ScoreToLevel(z.risk.value) == High
  {
  }

  // ---------- All layers ----------

  /** The per-zone random draws, already rounded. */
  datatype Draws = Draws(rawAqi: int, delta: int, rawConfidence: int)

  datatype Layers = Layers(
    airQuality: seq<AirQuality>,
    ndvi: seq<Ndvi>,
    hotspots: seq<Hotspot>,
    pastFires: seq<PastFire>,
    aiPred: seq<Prediction>)

  /** `buildLayerData`, given one set of draws per zone. */
  function BuildLayerData(zones: seq<Zone>, draws: seq<Draws>): (l: Layers)
    requires |draws| == |zones|
    ensures |l.airQuality| == |l.ndvi| == |l.aiPred| == |zones|
    ensures forall i :: 0 <= i < |zones| ==>
      && l.airQuality[i] == AirQualityOf(zones[i], draws[i].rawAqi)
      && l.ndvi[i] == Ndvi(zones[i].id, Vegetation(zones[i]))
      && l.aiPred[i] == PredictionOf(zones[i], draws[i].delta, draws[i].rawConfidence)
    ensures l.hotspots == Hotspots(zones)
    ensures l.pastFires == PastFires(zones)
  {
    Layers(
      seq(|zones|, i requires 0 <= i < |zones| => AirQualityOf(zones[i], draws[i].rawAqi)),
      seq(|zones|, i requires 0 <= i < |zones| => Ndvi(zones[i].id, Vegetation(zones[i]))),
      Hotspots(zones),
      PastFires(zones),
      seq(|zones|, i requires 0 <= i < |zones| =>
        PredictionOf(zones[i], draws[i].delta, draws[i].rawConfidence)))
  }

  // ---------- Selection and the side panel ----------

  /** `zones.findIndex((z) => z.id === id)`, as an optional index. */
  function FindZone(zones: seq<Zone>, id: Option<string>): (r: Option<nat>)
    ensures r.Some? ==> r.value < |zones| && Some(zones[r.value].id) == id
    ensures r.Some? ==> forall j :: 0 <= j < r.value ==> Some(zones[j].id) != id
    ensures r.None? ==> forall j :: 0 <= j < |zones| ==> Some(zones[j].id) != id
  {
    if |zones| == 0 then None
    else if Some(zones[0].id) == id then Some(0)
    else match FindZone(zones[1..], id)
      case Some(k) => Some(k + 1)
      case None => None
  }

  /** `zones.find((z) => z.id === selectedId) || zones[0]`: the first zone with the selected
      id, else the first zone, else nothing. `selectedId` is `null` when there were no zones. */
  function Selected(zones: seq<Zone>, selectedId: Option<string>): (r: Option<Zone>)
    ensures r.None? <==> |zones| == 0
    ensures r.Some? && Some(r.value.id) != selectedId ==> r.value == zones[0]
    ensures r.Some? ==> r.value in zones
    ensures FindZone(zones, selectedId).Some? ==> r == Some(zones[FindZone(zones, selectedId).value])
    ensures (exists i :: 0 <= i < |zones| && Some(zones[i].id) == selectedId) ==>
      r.Some? && Some(r.value.id) == selectedId
  {
    match FindZone(zones, selectedId)
    case Some(i) => Some(zones[i])
    case None => if |zones| == 0 then None else Some(zones[0])
  }

  /** `layers.hotspots.filter((x) => x.zoneId === id)`. */
  function HotspotsFor(hs: seq<Hotspot>, id: string): (r: seq<Hotspot>)
    ensures |r| <= |hs|
    ensures forall h :: h in r <==> h in hs && h.zoneId == id
  {
    if |hs| == 0 then []
    else (if hs[0].zoneId == id then [hs[0]] else []) + HotspotsFor(hs[1..], id)
  }

  /** `layers.pastFires.filter((x) => x.zoneId === id)`. */
  function PastFiresFor(fs: seq<PastFire>, id: string): (r: seq<PastFire>)
    ensures forall f :: f in r <==> f in fs && f.zoneId == id
  {
    if |fs| == 0 then []
    else (if fs[0].zoneId == id then [fs[0]] else []) + PastFiresFor(fs[1..], id)
  }

  /** With distinct zone ids, the selected zone's hotspots are exactly its own
      `HotspotCount`. */
  lemma {:induction false} HotspotsForZone(zones: seq<Zone>, k: nat)
    requires DistinctIds(zones) && k < |zones|
    ensures HotspotsFor(Hotspots(zones), zones[k].id) == HotspotsOf(zones[k])
  {
    var id := zones[k].id;
    var b := HotspotsOf(zones[0]);
    assert Hotspots(zones) == b + Hotspots(zones[1..]);
    HotspotsForConcat(b, Hotspots(zones[1..]), id);
    if k == 0 {
      HotspotsForOwn(b, id);
      HotspotsShape(zones[1..]);
      HotspotsForNone(Hotspots(zones[1..]), id);
      assert HotspotsFor(Hotspots(zones[1..]), id) == [];
    } else {
      assert DistinctIds(zones[1..]);
      HotspotsForZone(zones[1..], k - 1);
      assert zones[1..][k - 1] == zones[k];
      assert zones[0].id != id;
      HotspotsForNone(b, id);
    }
  }

  lemma {:induction false} HotspotsForConcat(a: seq<Hotspot>, b: seq<Hotspot>, id: string)
    ensures HotspotsFor(a + b, id) == HotspotsFor(a, id) + HotspotsFor(b, id)
  {
    if |a| > 0 {
      assert (a + b)[1..] == a[1..] + b;
      HotspotsForConcat(a[1..], b, id);
    } else {
      assert a + b == b;
    }
  }

  lemma {:induction false} HotspotsForOwn(hs: seq<Hotspot>, id: string)
    requires forall h :: h in hs ==> h.zoneId == id
    ensures HotspotsFor(hs, id) == hs
  {
    if |hs| > 0 {
      HotspotsForOwn(hs[1..], id);
    }
  }

  lemma {:induction false} HotspotsForNone(hs: seq<Hotspot>, id: string)
    requires forall h :: h in hs ==> h.zoneId != id
    ensures HotspotsFor(hs, id) == []
  {
    if |hs| > 0 {
      HotspotsForNone(hs[1..], id);
    }
  }

  /** With distinct zone ids, a zone has one past-fire footprint exactly when its risk is at
      least 55. */
  lemma {:induction false} PastFiresForZone(zones: seq<Zone>, k: nat)
    requires DistinctIds(zones) && k < |zones|
    ensures var fs := PastFiresFor(PastFires(zones), zones[k].id);
      && (RiskAtLeast(zones[k], PAST_FIRE_MIN_RISK) ==> fs == [PastFireOf(zones[k])])
      && (!RiskAtLeast(zones[k], PAST_FIRE_MIN_RISK) ==> fs == [])
  {
    var id := zones[k].id;
    var head := if RiskAtLeast(zones[0], PAST_FIRE_MIN_RISK) then [PastFireOf(zones[0])] else [];
    assert PastFires(zones) == head + PastFires(zones[1..]);
    PastFiresForConcat(head, PastFires(zones[1..]), id);
    if k == 0 {
      PastFiresOwners(zones[1..]);
      PastFiresForNone(PastFires(zones[1..]), id);
    } else {
      assert DistinctIds(zones[1..]);
      PastFiresForZone(zones[1..], k - 1);
      assert zones[1..][k - 1] == zones[k];
    }
  }

  lemma {:induction false} PastFiresOwners(zones: seq<Zone>)
    ensures forall f :: f in PastFires(zones) ==> exists i :: 0 <= i < |zones| && f.zoneId == zones[i].id
  {
    if |zones| > 0 {
      PastFiresOwners(zones[1..]);
      forall f | f in PastFires(zones[1..])
        ensures exists i :: 0 <= i < |zones| && f.zoneId == zones[i].id
      {
        var i :| 0 <= i < |zones[1..]| && f.zoneId == zones[1..][i].id;
        assert f.zoneId == zones[i + 1].id;
      }
    }
  }

  lemma {:induction false} PastFiresForConcat(a: seq<PastFire>, b: seq<PastFire>, id: string)
    ensures PastFiresFor(a + b, id) == PastFiresFor(a, id) + PastFiresFor(b, id)
  {
    if |a| > 0 {
      assert (a + b)[1..] == a[1..] + b;
      PastFiresForConcat(a[1..], b, id);
    } else {
      assert a + b == b;
    }
  }

  lemma {:induction false} PastFiresForNone(fs: seq<PastFire>, id: string)
    requires forall f :: f in fs ==> f.zoneId != id
    ensures PastFiresFor(fs, id) == []
  {
    if |fs| > 0 {
      PastFiresForNone(fs[1..], id);
    }
  }

  /** The hotspot card: at most five rows, and a "+k more" note with `k = count - 5` only when
      there are more than five. */
  datatype HotspotPanel = HotspotPanel(shown: seq<Hotspot>, more: Option<nat>)

  function HotspotPanelOf(selected: seq<Hotspot>): (p: HotspotPanel)
    ensures |p.shown| == Numeric.Min(5, |selected|)
    ensures p.shown == selected[..|p.shown|]
    ensures p.more.Some? <==> |selected| > 5
    ensures |p.shown| + p.more.GetOr(0) == |selected|
  {
    HotspotPanel(Sorting.Take(selected, 5), if |selected| > 5 then Some(|selected| - 5) else None)
  }

  /** With distinct zone ids the "+k more" note never appears: no zone has more than five
      hotspots. */
  lemma PanelNeverTruncates(zones: seq<Zone>, k: nat)
    requires DistinctIds(zones) && k < |zones|
    ensures HotspotPanelOf(HotspotsFor(Hotspots(zones), zones[k].id)).more == None
  {
    HotspotsForZone(zones, k);
  }
}
