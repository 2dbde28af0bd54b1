/** The guarded ROI formula shared by the dashboard KPI, the campaign-health classifier and
    the simulation total (server/routes.ts): profit as a percentage of spend, and 0 when
    the spend is not positive. */
module Roi {

  /** ROI in percent: `spend > 0 ? ((revenue - spend) / spend) * 100 : 0`. */
  function GuardedRoi(revenue: real, spend: real): (roi: real)
    ensures spend <= 0.0 ==> roi == 0.0
    ensures spend > 0.0 ==> (roi >= 0.0 <==> revenue >= spend)
    ensures spend > 0.0 ==> revenue == spend * (1.0 + roi / 100.0)
  {
    if spend > 0.0 then (revenue - spend) / spend * 100.0 else 0.0
  }

  /** For positive spend, ROI crosses a threshold `t` exactly when revenue crosses
      `spend * (1 + t/100)`; a threshold on ROI is a threshold on the revenue/spend ratio. */
  lemma RoiBelowIff(revenue: real, spend: real, t: real)
    requires spend > 0.0
    ensures GuardedRoi(revenue, spend) < t <==> revenue < spend * (1.0 + t / 100.0)
  {
  }
}
