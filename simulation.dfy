/** The budget-allocation projector of the simulation endpoint (server/routes.ts): one pass
    over the requested allocations, a fixed revenue-per-unit-of-spend efficiency per channel,
    one projection per allocation and unrounded running totals. */
module Simulation {
  import opened Wrappers
  import opened Schema
  import opened Roi

  /** The hard-coded efficiency table: revenue generated per unit of spend. */
  const EfficiencyTable: map<string, real> :=
    map["Social" := 3.5, "Search" := 4.2, "Email" := 5.0, "Display" := 2.1]

  /** The multiplier used for any channel the table does not list. */
  const DefaultEfficiency: real := 3.0

  /** `efficiencyMap[channel] || 3.0`: the table entry when there is a non-zero one, the
      default otherwise. Matching is exact and case-sensitive. */
  function Efficiency(channel: string): (e: real)
    ensures e > 0.0
    ensures channel in EfficiencyTable ==> e == EfficiencyTable[channel]
    ensures channel !in EfficiencyTable ==> e == DefaultEfficiency
  {
    if channel in EfficiencyTable && EfficiencyTable[channel] != 0.0 then EfficiencyTable[channel]
    else DefaultEfficiency
  }

  /** One emitted result. `projectedROI` is None where the source divides zero by zero: the
      NaN it computes there is serialised as JSON `null`. */
  datatype ChannelProjection = ChannelProjection(
    channel: string, allocation: real, projectedRevenue: real, projectedROI: Option<real>)

  /** The response body. The running spend total only feeds the total ROI; it is not emitted. */
  datatype SimulationResult = SimulationResult(
    results: seq<ChannelProjection>, totalProjectedRevenue: real, totalProjectedROI: real)

  /** The projection of one allocation as the loop body computes it: revenue is amount times
      efficiency; ROI is `((revenue - amount) / amount) * 100`, with no guard against zero. */
  function Project(a: Allocation): (p: ChannelProjection)
    ensures p.channel == a.channel && p.allocation == a.amount
    ensures p.projectedRevenue == a.amount * Efficiency(a.channel)
    ensures p.projectedROI.None? <==> a.amount == 0.0
    ensures a.amount != 0.0 ==> p.projectedROI == Some((Efficiency(a.channel) - 1.0) * 100.0)
  {
    var revenue := a.amount * Efficiency(a.channel);
    var roi := if a.amount == 0.0 then None else Some((revenue - a.amount) / a.amount * 100.0);
    ProfitRatio(a.amount, Efficiency(a.channel));
    ChannelProjection(a.channel, a.amount, revenue, roi)
  }

  /** `(amount * e - amount) / amount` is `e - 1` for every non-zero amount. */
  lemma ProfitRatio(amount: real, e: real)
    ensures amount != 0.0 ==> (amount * e - amount) / amount == e - 1.0
  {
    if amount != 0.0 {
      var d := e - 1.0;
      assert amount * e - amount == amount * d;
      assert (amount * d) / amount == d;
      assert (amount * e - amount) / amount == (amount * d) / amount;
    }
  }

  /** The projected revenue of one allocation: its amount times its channel's efficiency. */
  function Revenue(a: Allocation): real
  {
    a.amount * Efficiency(a.channel)
  }

  /** The sum of the unrounded projected revenues, accumulated in input order. */
  function TotalProjectedRevenue(allocations: seq<Allocation>): real
  {
    if allocations == [] then 0.0
    else TotalProjectedRevenue(allocations[..|allocations| - 1]) + Revenue(allocations[|allocations| - 1])
  }

  /** The handler body after the request has been parsed: one `Project` per allocation, in
      input order, and the totals from the unrounded running sums. */
  method Simulate(allocations: seq<Allocation>) returns (r: SimulationResult)
    ensures |r.results| == |allocations|
    ensures forall i :: 0 <= i < |allocations| ==> r.results[i] == Project(allocations[i])
    ensures r.totalProjectedRevenue == TotalProjectedRevenue(allocations)
    ensures r.totalProjectedROI == GuardedRoi(TotalProjectedRevenue(allocations), TotalAmount(allocations))
  {
    var results: seq<ChannelProjection> := [];
    var totalProjectedRevenue := 0.0;
    var totalProjectedSpend := 0.0;
    for i := 0 to |allocations|
      invariant |results| == i
      invariant forall k :: 0 <= k < i ==> results[k] == Project(allocations[k])
      invariant totalProjectedRevenue == TotalProjectedRevenue(allocations[..i])
      invariant totalProjectedSpend == TotalAmount(allocations[..i])
    {
      var alloc := allocations[i];
      var projection := Project(alloc);
      var projectedRevenue := projection.projectedRevenue;
      results := results + [projection];
      TotalsStep(allocations, i);
      totalProjectedRevenue := totalProjectedRevenue + projectedRevenue;
      totalProjectedSpend := totalProjectedSpend + alloc.amount;
    }
    assert allocations[..|allocations|] == allocations;
    var totalProjectedROI := GuardedRoi(totalProjectedRevenue, totalProjectedSpend);
    r := SimulationResult(results, totalProjectedRevenue, totalProjectedROI);
  }

  /** One more allocation adds its projected revenue and its amount to the prefix totals. */
  lemma TotalsStep(allocations: seq<Allocation>, i: nat)
    requires i < |allocations|
    ensures TotalProjectedRevenue(allocations[..i + 1])
      == TotalProjectedRevenue(allocations[..i]) + Project(allocations[i]).projectedRevenue
    ensures TotalAmount(allocations[..i + 1]) == TotalAmount(allocations[..i]) + allocations[i].amount
  {
    var done := allocations[..i + 1];
    assert done[..i] == allocations[..i] && done[i] == allocations[i];
  }

  /** The per-channel ROI does not depend on the amount: every non-zero amount on the same
      channel gives the same ROI. */
  lemma ProjectedRoiIndependentOfAmount(a: Allocation, b: Allocation)
    requires a.channel == b.channel && a.amount != 0.0 && b.amount != 0.0
    ensures Project(a).projectedROI == Project(b).projectedROI
  {
  }

  /** Projected revenue is additive over a split of the allocation list. */
  lemma {:induction false} TotalProjectedRevenueConcat(a: seq<Allocation>, b: seq<Allocation>)
    ensures TotalProjectedRevenue(a + b) == TotalProjectedRevenue(a) + TotalProjectedRevenue(b)
    decreases |b|
  {
    if b == [] {
      assert a + b == a;
    } else {
      var b' := b[..|b| - 1];
      var last := b[|b| - 1];
      assert (a + b)[..|a + b| - 1] == a + b' && (a + b)[|a + b| - 1] == last;
      assert TotalProjectedRevenue(a + b) == TotalProjectedRevenue(a + b') + Revenue(last);
      assert TotalProjectedRevenue(b) == TotalProjectedRevenue(b') + Revenue(last);
      TotalProjectedRevenueConcat(a, b');
    }
  }

  /** Every efficiency in the table and the default exceed 1, so when no amount is negative
      the projected revenue covers the spend and the total ROI is not negative. */
  lemma {:induction false} TotalRevenueCoversSpend(allocations: seq<Allocation>)
    requires forall i :: 0 <= i < |allocations| ==> allocations[i].amount >= 0.0
    ensures TotalProjectedRevenue(allocations) >= TotalAmount(allocations)
    ensures GuardedRoi(TotalProjectedRevenue(allocations), TotalAmount(allocations)) >= 0.0
    decreases |allocations|
  {
    if allocations != [] {
      var prefix := allocations[..|allocations| - 1];
      var last := allocations[|allocations| - 1];
      TotalRevenueCoversSpend(prefix);
      assert Revenue(last) >= last.amount * 1.0 by {
        assert Efficiency(last.channel) >= 2.1;
      }
    }
  }

  /** The response schema the client parses the result with requires every `projectedROI`
      to be a number; a `null` there makes the whole response fail to parse. */
  predicate HasNumericRoi(p: ChannelProjection)
  {
    p.projectedROI.Some?
  }

  /** As written, a zero amount (the slider's minimum) yields a projection whose ROI is not a
      number, so a request with one such allocation gets a response the client rejects. */
  lemma ZeroAmountBreaksResponse(allocations: seq<Allocation>, i: nat)
    requires i < |allocations| && allocations[i].amount == 0.0
    ensures !HasNumericRoi(Project(allocations[i]))
  {
  }

  /** The evidently intended projection: the same revenue, and an ROI of 0 for a zero amount
      instead of the division by zero. */
  function ProjectGuarded(a: Allocation): (p: ChannelProjection)
    ensures HasNumericRoi(p)
    ensures p.channel == a.channel && p.allocation == a.amount
    ensures p.projectedRevenue == a.amount * Efficiency(a.channel)
    ensures a.amount == 0.0 ==> p.projectedROI == Some(0.0)
    ensures a.amount != 0.0 ==> p.projectedROI == Project(a).projectedROI
  {
    var revenue := a.amount * Efficiency(a.channel);
    var roi := if a.amount == 0.0 then 0.0 else (revenue - a.amount) / a.amount * 100.0;
    ProfitRatio(a.amount, Efficiency(a.channel));
    ChannelProjection(a.channel, a.amount, revenue, Some(roi))
  }
}
