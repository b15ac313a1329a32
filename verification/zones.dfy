/** The zone list page (src/pages/Zones.jsx): risk classification, the add-zone form and the
    risk-ordered display list. The zone records themselves come from a data module that is
    not part of this model; they are taken as an input sequence. */
module Zones {
  import opened Wrappers
  import Strings
  import Numeric
  import Sorting

  datatype Level = Low | Moderate | High | Extreme {
    /** Position in the severity order, `Low` lowest. */
    function Rank(): nat {
      match this
      case Low => 0
      case Moderate => 1
      case High => 2
      case Extreme => 3
    }
  }

  /** A monitored zone. `risk` may be missing from a record; `radiusKm` is optional and the
      page shows 20 when it is. Coordinates are carried but never computed with here. */
  datatype Zone = Zone(
    id: string,
    name: string,
    lat: real,
    lng: real,
    risk: Option<int>,
    level: Level,
    radiusKm: Option<int>)

  /** `z.risk || 0`, the key every risk ordering and the mean use. */
  function RiskOrZero(z: Zone): int {
    z.risk.GetOr(0)
  }

  /** The lowest score of each level's band. */
  function MinScore(l: Level): int {
    match l
    case Low => 0
    case Moderate => 35
    case High => 60
    case Extreme => 80
  }

  /** `scoreToLevel`: a score belongs to the highest level whose band starts at or below it. */
  function ScoreToLevel(score: int): (l: Level)
    ensures l == Extreme <==> score >= 80
    ensures l == High <==> 60 <= score < 80
    ensures l == Moderate <==> 35 <= score < 60
    ensures l == Low <==> score < 35
  {
    if score >= 80 then Extreme
    else if score >= 60 then High
    else if score >= 35 then Moderate
    else Low
  }

  /** A level is reached exactly from its band's lowest score on, so classifying never puts a
      higher score in a lower level. */
  lemma ScoreToLevelBands(score: int, l: Level)
    requires l != Low
    ensures ScoreToLevel(score).Rank() >= l.Rank() <==> score >= MinScore(l)
  {
  }

  lemma ScoreToLevelMonotone(s: int, t: int)
    requires s <= t
    ensures ScoreToLevel(s).Rank() <= ScoreToLevel(t).Rank()
  {
  }

  /** The percentage `RiskMiniRing` prints: `Math.max(0, Math.min(100, score))`. A missing
      score makes it NaN, modelled as `None`. */
  function MiniRingPercent(score: Option<int>): (pct: Option<int>)
    ensures pct.Some? <==> score.Some?
    ensures pct.Some? ==> 0 <= pct.value <= 100
    ensures score.Some? && 0 <= score.value <= 100 ==> pct == score
  {
    match score
    case Some(s) => Some(Numeric.Clamp(s, 0, 100))
    case None => None
  }

  /** The outcome of `Number(text)` for a coordinate field. The parse itself is outside the
      model; only whether it produced NaN matters to the guard. */
  datatype ParsedNumber = NaN | Num(value: real)

  /** The add-zone form at submit time: the raw name, the parsed coordinates and the radius
      slider's value. */
  datatype ZoneForm = ZoneForm(name: string, lat: ParsedNumber, lng: ParsedNumber, radiusKm: int)

  /** `addZone`'s guard: a name that is not blank after trimming and two numeric coordinates. */
  predicate Accepts(form: ZoneForm) {
    Strings.Trim(form.name) != "" && form.lat.Num? && form.lng.Num?
  }

  /** The risk given to a new zone, `Math.max(5, Math.min(95, roll))`, where `roll` is the
      page's rounded random draw `Math.round(30 + Math.random() * 55)`. */
  function PseudoRisk(roll: int): (risk: int)
    ensures 5 <= risk <= 95
    ensures 5 <= roll <= 95 ==> risk == roll
  {
    Numeric.Clamp(roll, 5, 95)
  }

  /** `addZone`: a rejected form leaves the list alone; an accepted one appends one zone whose
      id is the clock reading `now` (`Date.now()`), whose name is trimmed, whose risk is the
      clamped draw and whose level is that risk's classification. */
  function AddZone(zones: seq<Zone>, form: ZoneForm, now: nat, roll: int): (r: seq<Zone>)
    ensures !Accepts(form) ==> r == zones
    ensures Accepts(form) ==>
      && |r| == |zones| + 1
      && r[..|zones|] == zones
      && r[|zones|].id == Strings.NatToString(now)
      && r[|zones|].name == Strings.Trim(form.name)
      && r[|zones|].name != ""
      && r[|zones|].lat == form.lat.value
      && r[|zones|].lng == form.lng.value
      && r[|zones|].risk == Some(PseudoRisk(roll))
      && 5 <= r[|zones|].risk.value <= 95
      && r[|zones|].level == ScoreToLevel(r[|zones|].risk.value)
      && r[|zones|].radiusKm == Some(form.radiusKm)
  {
    if !Accepts(form) then zones
    else
      var risk := PseudoRisk(roll);
      zones + [Zone(Strings.NatToString(now), Strings.Trim(form.name),
                    form.lat.value, form.lng.value, Some(risk), ScoreToLevel(risk),
                    Some(form.radiusKm))]
  }

  /** A zone as the list shows it, with the placeholder conditions its level selects. */
  datatype DerivedZone = DerivedZone(zone: Zone, temp: string, wind: string, ndvi: string)

  /** The placeholder conditions: one set for Extreme, one for High, one for every other level. */
  function Decorate(z: Zone): (d: DerivedZone)
    ensures d.zone == z
  {
    match z.level
    case Extreme => DerivedZone(z, "38°F", "32 mph", "0.21")
    case High => DerivedZone(z, "34°F", "18 mph", "0.34")
    case _ => DerivedZone(z, "26°F", "15 mph", "0.48")
  }

  function DecorateAll(zones: seq<Zone>): (ds: seq<DerivedZone>)
    ensures |ds| == |zones|
    ensures forall i :: 0 <= i < |zones| ==> ds[i] == Decorate(zones[i])
  {
    if |zones| == 0 then [] else [Decorate(zones[0])] + DecorateAll(zones[1..])
  }

  function DerivedRisk(d: DerivedZone): int {
    RiskOrZero(d.zone)
  }

  /** The list the page renders (`derived`): every zone, decorated, highest risk first, a
      missing risk counting as 0. */
  function Derived(zones: seq<Zone>): (r: seq<DerivedZone>)
    ensures |r| == |zones|
    ensures Sorting.SortedDesc(r, DerivedRisk)
    ensures multiset(r) == multiset(DecorateAll(zones))
  {
    Sorting.SortDesc(DecorateAll(zones), DerivedRisk)
  }

  lemma {:induction false} DecorateAllCount(zones: seq<Zone>, z: Zone)
    ensures multiset(DecorateAll(zones))[Decorate(z)] == multiset(zones)[z]
  {
    if |zones| > 0 {
      var head, tail := zones[0], zones[1..];
      DecorateAllCount(tail, z);
      assert zones == [head] + tail;
      assert DecorateAll(zones) == [Decorate(head)] + DecorateAll(tail);
      var m := multiset(DecorateAll(tail));
      assert multiset(DecorateAll(zones)) == multiset{Decorate(head)} + m;
      assert multiset(zones) == multiset{head} + multiset(tail);
      if head == z {
        assert multiset{Decorate(head)}[Decorate(z)] == 1;
      } else {
        assert Decorate(head).zone != Decorate(z).zone;
        assert multiset{Decorate(head)}[Decorate(z)] == 0;
      }
    }
  }

  /** `derived` is a permutation of the zones: each zone appears in it, decorated, exactly as
      many times as in the input, and every row carries its own level's placeholders. */
  lemma DerivedIsPermutation(zones: seq<Zone>)
    ensures forall z :: multiset(Derived(zones))[Decorate(z)] == multiset(zones)[z]
    ensures forall i :: 0 <= i < |zones| ==> Derived(zones)[i] == Decorate(Derived(zones)[i].zone)
  {
    forall z
      ensures multiset(Derived(zones))[Decorate(z)] == multiset(zones)[z]
    {
      DecorateAllCount(zones, z);
    }
    var r := Derived(zones);
    var ds := DecorateAll(zones);
    forall i | 0 <= i < |zones|
      ensures r[i] == Decorate(r[i].zone)
    {
      assert r[i] in multiset(ds);
      var j :| 0 <= j < |ds| && ds[j] == r[i];
    }
  }

  /** Zones with equal risk keep their input order in `derived`, because the page's sort is
      stable. */
  lemma DerivedKeepsTies(zones: seq<Zone>, risk: int)
    ensures Sorting.KeyRun(Derived(zones), DerivedRisk, risk)
         == Sorting.KeyRun(DecorateAll(zones), DerivedRisk, risk)
  {
    Sorting.SortStable(DecorateAll(zones), DerivedRisk, risk);
  }
}
