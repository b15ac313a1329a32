/** The dashboard's summary figures (src/pages/Dashboard.jsx): counts by level, the rounded
    mean risk, and the highest-risk zones shown as cards and as mock alerts. */
module Dashboard {
  import opened Wrappers
  import opened Zones
  import Strings
  import Numeric
  import Sorting

  /** One row of the "recent alerts" panel. */
  datatype RecentAlert = RecentAlert(
    id: string,
    title: string,
    level: Level,
    score: Option<int>,
    time: string,
    notified: int)

  datatype Stats = Stats(
    monitored: nat,
    extreme: nat,
    high: nat,
    avg: int,
    recentAlerts: seq<RecentAlert>,
    highest: seq<Zone>)

  /** The level of each zone, in order. */
  function Levels(zones: seq<Zone>): (ls: seq<Level>)
    ensures |ls| == |zones|
    ensures forall i :: 0 <= i < |zones| ==> ls[i] == zones[i].level
  {
    seq(|zones|, i requires 0 <= i < |zones| => zones[i].level)
  }

  /** `zones.filter((z) => z.level === l).length`: the number of zones whose level is exactly
      `l`. */
  function CountLevel(zones: seq<Zone>, l: Level): (n: nat)
    ensures n <= |zones|
    ensures n == multiset(Levels(zones))[l]
  {
    if |zones| == 0 then 0
    else
      assert Levels(zones) == [zones[0].level] + Levels(zones[1..]);
      (if zones[0].level == l then 1 else 0) + CountLevel(zones[1..], l)
  }

  /** `zones.reduce((a, z) => a + (z.risk || 0), 0)`. */
  function RiskSum(zones: seq<Zone>): int {
    if |zones| == 0 then 0 else RiskOrZero(zones[0]) + RiskSum(zones[1..])
  }

  /** `avg`: 0 for no zones, otherwise the mean risk rounded half up. */
  function Average(zones: seq<Zone>): (avg: int)
    ensures |zones| == 0 ==> avg == 0
    ensures |zones| > 0 ==>
      2 * |zones| * avg - |zones| <= 2 * RiskSum(zones) < 2 * |zones| * avg + |zones|
  {
    if |zones| == 0 then 0 else Numeric.RoundHalfUp(RiskSum(zones), |zones|)
  }

  /** The sorted copy both panels start from. */
  function ByRisk(zones: seq<Zone>): seq<Zone> {
    Sorting.SortDesc(zones, RiskOrZero)
  }

  /** `${z.id}-${idx}`. */
  function AlertId(zoneId: string, idx: nat): string {
    zoneId + "-" + Strings.NatToString(idx)
  }

  const ALERT_TIME := "Dec 22, 5:22 PM"

  /** `recentAlerts`: the three highest-risk zones, the i-th numbered `i` in its id and
      showing `i + 2` notified recipients. */
  function RecentAlerts(zones: seq<Zone>): (r: seq<RecentAlert>)
    ensures |r| == Numeric.Min(3, |zones|)
    ensures forall i :: 0 <= i < |r| ==>
      var z := ByRisk(zones)[i];
      r[i] == RecentAlert(AlertId(z.id, i), z.name, z.level, z.risk, ALERT_TIME, i + 2)
  {
    var top := Sorting.Take(ByRisk(zones), 3);
    seq(|top|, i requires 0 <= i < |top| =>
      RecentAlert(AlertId(top[i].id, i), top[i].name, top[i].level, top[i].risk, ALERT_TIME, i + 2))
  }

  /** `highest`: the first four of the sorted copy. */
  function Highest(zones: seq<Zone>): seq<Zone> {
    Sorting.Take(ByRisk(zones), 4)
  }

  /** The whole `stats` object. */
  function ComputeStats(zones: seq<Zone>): (s: Stats)
    ensures s.monitored == |zones|
    ensures s.extreme == multiset(Levels(zones))[Extreme]
    ensures s.high == multiset(Levels(zones))[High]
    ensures s.extreme + s.high <= s.monitored
    ensures s.avg == Average(zones)
    ensures s.recentAlerts == RecentAlerts(zones)
    ensures s.highest == Highest(zones)
  {
    CountsBounded(zones);
    Stats(|zones|, CountLevel(zones, Extreme), CountLevel(zones, High), Average(zones),
          RecentAlerts(zones), Highest(zones))
  }

  /** The four level counts partition the zones. */
  lemma {:induction false} CountsPartition(zones: seq<Zone>)
    ensures CountLevel(zones, Low) + CountLevel(zones, Moderate)
          + CountLevel(zones, High) + CountLevel(zones, Extreme) == |zones|
  {
    if |zones| > 0 {
      CountsPartition(zones[1..]);
    }
  }

  /** Counting distributes over concatenation, and one zone counts once for its own level. */
  lemma {:induction false} CountLevelConcat(a: seq<Zone>, b: seq<Zone>, l: Level)
    ensures CountLevel(a + b, l) == CountLevel(a, l) + CountLevel(b, l)
    ensures |a| == 1 ==> CountLevel(a, l) == if a[0].level == l then 1 else 0
  {
    if |a| > 0 {
      assert (a + b)[1..] == a[1..] + b;
      CountLevelConcat(a[1..], b, l);
    } else {
      assert a + b == b;
    }
  }

  lemma CountsBounded(zones: seq<Zone>)
    ensures CountLevel(zones, Extreme) + CountLevel(zones, High) <= |zones|
  {
    CountsPartition(zones);
  }

  /** When every present risk is a score in `[0, 100]`, so is the mean. */
  lemma AverageBounds(zones: seq<Zone>)
    requires forall i :: 0 <= i < |zones| ==> 0 <= RiskOrZero(zones[i]) <= 100
    ensures 0 <= Average(zones) <= 100
  {
    if |zones| > 0 {
      RiskSumBounds(zones);
      Numeric.RoundedMeanBounds(RiskSum(zones), |zones|, 0, 100);
    }
  }

  lemma {:induction false} RiskSumBounds(zones: seq<Zone>)
    requires forall i :: 0 <= i < |zones| ==> 0 <= RiskOrZero(zones[i]) <= 100
    ensures 0 <= RiskSum(zones) <= 100 * |zones|
  {
    if |zones| > 0 {
      RiskSumBounds(zones[1..]);
    }
  }

  /** `highest` holds `min(4, n)` zones, highest risk first, all drawn from the input, and no
      zone left out has a higher risk than any shown. */
  lemma HighestAreTop(zones: seq<Zone>)
    ensures var h := Highest(zones);
      && |h| == Numeric.Min(4, |zones|)
      && Sorting.SortedDesc(h, RiskOrZero)
      && multiset(h) <= multiset(zones)
      && forall i, y :: 0 <= i < |h| && y in multiset(zones) - multiset(h) ==>
           RiskOrZero(h[i]) >= RiskOrZero(y)
  {
    Sorting.TopOfSorted(zones, RiskOrZero, 4);
  }

  /** The mock alerts name the same zones as the first three cards, in the same order. */
  lemma RecentAlertsFollowHighest(zones: seq<Zone>)
    ensures forall i :: 0 <= i < |RecentAlerts(zones)| ==>
      i < |Highest(zones)| && RecentAlerts(zones)[i].title == Highest(zones)[i].name
  {
  }

  /** The mock alerts have pairwise different ids, even when zones share an id. */
  lemma RecentAlertIdsDistinct(zones: seq<Zone>)
    ensures forall i, j :: 0 <= i < j < |RecentAlerts(zones)| ==>
      RecentAlerts(zones)[i].id != RecentAlerts(zones)[j].id
  {
    var r := RecentAlerts(zones);
    forall i, j | 0 <= i < j < |r|
      ensures r[i].id != r[j].id
    {
      var s := ByRisk(zones);
      Strings.NumberedIdUnique(s[i].id + "-", i, s[j].id + "-", j);
    }
  }

  /** `RiskRing`'s percentage: the `value` prop defaults to 0 when the zone has no risk, then
      `Math.max(0, Math.min(100, value))`. */
  function RingPercent(value: Option<int>): (pct: int)
    ensures 0 <= pct <= 100
    ensures value.Some? && 0 <= value.value <= 100 ==> pct == value.value
    ensures value.None? ==> pct == 0
  {
    Numeric.Clamp(value.GetOr(0), 0, 100)
  }
}
