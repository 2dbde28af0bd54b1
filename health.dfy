/** The campaign-health endpoint (server/routes.ts): for each campaign, the sums of spend and
    revenue over all of its daily metric rows, the guarded ROI of those sums, and a
    three-level status from fixed ROI thresholds. */
module Health {
  import opened Schema
  import opened Roi

  datatype HealthStatus = Healthy | Attention | Critical

  /** Below this ROI (in percent) a campaign is critical. */
  const CriticalBelow: real := 100.0
  /** Below this ROI (and not critical) a campaign needs attention. */
  const AttentionBelow: real := 200.0

  /** The order of the statuses, worst first. */
  function Rank(s: HealthStatus): nat
  {
    match s
    case Critical => 0
    case Attention => 1
    case Healthy => 2
  }

  /** The status of an ROI: critical below the first threshold, attention below the
      second, healthy otherwise. */
  function Classify(roi: real): (s: HealthStatus)
    ensures s == Critical <==> roi < CriticalBelow
    ensures s == Attention <==> CriticalBelow <= roi < AttentionBelow
    ensures s == Healthy <==> AttentionBelow <= roi
  {
    if roi < CriticalBelow then Critical
    else if roi < AttentionBelow then Attention
    else Healthy
  }

  /** A higher ROI never yields a worse status. */
  lemma ClassifyMonotone(roi1: real, roi2: real)
    requires roi1 <= roi2
    ensures Rank(Classify(roi1)) <= Rank(Classify(roi2))
  {
  }

  /** `metrics.reduce((sum, m) => sum + Number(m.spend), 0)`. */
  function TotalSpend(rows: seq<MetricRow>): real
  {
    if rows == [] then 0.0 else TotalSpend(rows[..|rows| - 1]) + rows[|rows| - 1].spend
  }

  /** `metrics.reduce((sum, m) => sum + Number(m.revenue), 0)`. */
  function TotalRevenue(rows: seq<MetricRow>): real
  {
    if rows == [] then 0.0 else TotalRevenue(rows[..|rows| - 1]) + rows[|rows| - 1].revenue
  }

  datatype HealthMetrics = HealthMetrics(spend: real, revenue: real)

  /** One element of the health list. `roi` is the unrounded value the status is taken from. */
  datatype CampaignHealth = CampaignHealth(
    id: int, name: string, status: HealthStatus, roi: real, metrics: HealthMetrics)

  /** The status the classifier gives to a campaign's totals. */
  function StatusOf(rows: seq<MetricRow>): HealthStatus
  {
    Classify(GuardedRoi(TotalRevenue(rows), TotalSpend(rows)))
  }

  /** The entry the loop body pushes for campaign `c`, whose metric rows are `rows`. */
  function HealthOf(c: Campaign, rows: seq<MetricRow>): (h: CampaignHealth)
    ensures h.id == c.id && h.name == c.name
    ensures h.metrics == HealthMetrics(TotalSpend(rows), TotalRevenue(rows))
    ensures h.roi == GuardedRoi(TotalRevenue(rows), TotalSpend(rows))
    ensures h.status == StatusOf(rows)
  {
    var totalSpend := TotalSpend(rows);
    var totalRevenue := TotalRevenue(rows);
    var roi := GuardedRoi(totalRevenue, totalSpend);
    CampaignHealth(c.id, c.name, Classify(roi), roi, HealthMetrics(totalSpend, totalRevenue))
  }

  /** The handler loop. `metricsOf` stands for the storage query that returns a campaign's
      daily metric rows. */
  method CampaignHealthList(campaigns: seq<Campaign>, metricsOf: int -> seq<MetricRow>)
    returns (healthData: seq<CampaignHealth>)
    ensures |healthData| == |campaigns|
    ensures forall k :: 0 <= k < |campaigns| ==> healthData[k] == HealthOf(campaigns[k], metricsOf(campaigns[k].id))
  {
    healthData := [];
    for i := 0 to |campaigns|
      invariant |healthData| == i
      invariant forall k :: 0 <= k < i ==> healthData[k] == HealthOf(campaigns[k], metricsOf(campaigns[k].id))
    {
      var c := campaigns[i];
      var metrics := metricsOf(c.id);
      var totalSpend := TotalSpend(metrics);
      var totalRevenue := TotalRevenue(metrics);
      var roi := if totalSpend > 0.0 then (totalRevenue - totalSpend) / totalSpend * 100.0 else 0.0;
      var status := Healthy;
      if roi < CriticalBelow {
        status := Critical;
      } else if roi < AttentionBelow {
        status := Attention;
      }
      healthData := healthData + [CampaignHealth(c.id, c.name, status, roi, HealthMetrics(totalSpend, totalRevenue))];
    }
  }

  /** The thresholds restated on the sums: with positive spend a campaign is critical when its
      revenue is below twice its spend, needs attention below three times its spend, and is
      healthy otherwise; with no positive spend it is always critical. */
  lemma StatusBySums(rows: seq<MetricRow>)
    ensures TotalSpend(rows) <= 0.0 ==> StatusOf(rows) == Critical
    ensures TotalSpend(rows) > 0.0 ==>
      (StatusOf(rows) == Critical <==> TotalRevenue(rows) < 2.0 * TotalSpend(rows))
    ensures TotalSpend(rows) > 0.0 ==>
      (StatusOf(rows) == Attention <==>
        2.0 * TotalSpend(rows) <= TotalRevenue(rows) < 3.0 * TotalSpend(rows))
    ensures TotalSpend(rows) > 0.0 ==>
      (StatusOf(rows) == Healthy <==> 3.0 * TotalSpend(rows) <= TotalRevenue(rows))
  {
    var spend, revenue := TotalSpend(rows), TotalRevenue(rows);
    if spend > 0.0 {
      RoiBelowIff(revenue, spend, CriticalBelow);
      RoiBelowIff(revenue, spend, AttentionBelow);
    }
  }

  /** The spend and revenue sums are additive over a split of the rows. */
  lemma {:induction false} TotalsConcat(a: seq<MetricRow>, b: seq<MetricRow>)
    ensures TotalSpend(a + b) == TotalSpend(a) + TotalSpend(b)
    ensures TotalRevenue(a + b) == TotalRevenue(a) + TotalRevenue(b)
    decreases |b|
  {
    if b == [] {
      assert a + b == a;
    } else {
      var b' := b[..|b| - 1];
      assert (a + b)[..|a + b| - 1] == a + b';
      TotalsConcat(a, b');
    }
  }

  /** Threshold examples: ROI 95 is critical, 110 needs attention, and zero spend is critical;
      the boundaries 100 and 200 fall on the better side. */
  lemma ClassifyExamples()
    ensures GuardedRoi(19500.0, 10000.0) == 95.0 && Classify(95.0) == Critical
    ensures GuardedRoi(21000.0, 10000.0) == 110.0 && Classify(110.0) == Attention
    ensures GuardedRoi(0.0, 0.0) == 0.0 && Classify(0.0) == Critical
    ensures Classify(100.0) == Attention && Classify(200.0) == Healthy
  {
  }
}
