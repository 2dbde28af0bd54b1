/** The dashboard summary (server/storage.ts `getDashboardSummary`, after its query, and the
    KPI response built from it in server/routes.ts): one pass over the joined metric rows
    keeping two running totals and a channel -> {revenue, spend} map whose entries are then
    listed in insertion order. */
module Dashboard {
  import opened Seqs
  import opened Roi

  /** One row of the join of daily metrics with their campaign's channel. */
  datatype SummaryRow = SummaryRow(revenue: real, spend: real, channel: string)

  /** Which of the two summed quantities. */
  datatype Measure = Revenue | Spend

  function Value(row: SummaryRow, m: Measure): real
  {
    match m
    case Revenue => row.revenue
    case Spend => row.spend
  }

  /** The value held in the channel map. */
  datatype Totals = Totals(revenue: real, spend: real)

  /** One element of `revenueByChannel`. */
  datatype ChannelSummary = ChannelSummary(channel: string, revenue: real, spend: real)

  datatype DashboardSummary = DashboardSummary(
    totalRevenue: real, totalSpend: real, revenueByChannel: seq<ChannelSummary>)

  /** The sum of one measure over all rows, accumulated in row order. */
  function Total(rows: seq<SummaryRow>, m: Measure): real
  {
    if rows == [] then 0.0 else Total(rows[..|rows| - 1], m) + Value(rows[|rows| - 1], m)
  }

  /** The sum of one measure over the rows of channel `c` only. */
  function ChannelTotal(rows: seq<SummaryRow>, c: string, m: Measure): real
  {
    if rows == [] then 0.0
    else
      var last := rows[|rows| - 1];
      ChannelTotal(rows[..|rows| - 1], c, m) + (if last.channel == c then Value(last, m) else 0.0)
  }

  /** The channels in order of first appearance: the key order of a JavaScript Map that
      receives each channel on first sight. */
  function Channels(rows: seq<SummaryRow>): seq<string>
  {
    if rows == [] then []
    else
      var keys := Channels(rows[..|rows| - 1]);
      var c := rows[|rows| - 1].channel;
      if c in keys then keys else keys + [c]
  }

  /** A channel that occurs in no row has zero totals. */
  lemma {:induction false} ChannelTotalAbsent(rows: seq<SummaryRow>, c: string, m: Measure)
    requires c !in Channels(rows)
    ensures ChannelTotal(rows, c, m) == 0.0
    decreases |rows|
  {
    if rows != [] {
      var prefix := rows[..|rows| - 1];
      assert Channels(prefix) <= Channels(rows);
      ChannelTotalAbsent(prefix, c, m);
    }
  }

  /** The loop of `getDashboardSummary`, with `allMetrics` given as `rows`. */
  method GetDashboardSummary(rows: seq<SummaryRow>) returns (s: DashboardSummary)
    ensures s.totalRevenue == Total(rows, Revenue) && s.totalSpend == Total(rows, Spend)
    ensures |s.revenueByChannel| == |Channels(rows)|
    ensures forall k :: 0 <= k < |s.revenueByChannel| ==>
      var c := Channels(rows)[k];
      s.revenueByChannel[k] == ChannelSummary(c, ChannelTotal(rows, c, Revenue), ChannelTotal(rows, c, Spend))
    ensures rows == [] ==> s == DashboardSummary(0.0, 0.0, [])
  {
    var totalRevenue := 0.0;
    var totalSpend := 0.0;
    var channelMap: map<string, Totals> := map[];
    var order: seq<string> := [];  // the insertion order of channelMap's keys
    for i := 0 to |rows|
      invariant totalRevenue == Total(rows[..i], Revenue) && totalSpend == Total(rows[..i], Spend)
      invariant order == Channels(rows[..i])
      invariant forall c :: c in channelMap <==> c in order
      invariant forall c :: c in channelMap ==>
        channelMap[c] == Totals(ChannelTotal(rows[..i], c, Revenue), ChannelTotal(rows[..i], c, Spend))
    {
      var m := rows[i];
      ghost var seen := rows[..i + 1];
      assert seen[..i] == rows[..i] && seen[i] == m;
      if m.channel !in channelMap {
        ChannelTotalAbsent(rows[..i], m.channel, Revenue);
        ChannelTotalAbsent(rows[..i], m.channel, Spend);
      }
      totalRevenue := totalRevenue + m.revenue;
      totalSpend := totalSpend + m.spend;
      if m.channel !in channelMap {
        channelMap := channelMap[m.channel := Totals(0.0, 0.0)];
        order := order + [m.channel];
      }
      var ch := channelMap[m.channel];
      channelMap := channelMap[m.channel := Totals(ch.revenue + m.revenue, ch.spend + m.spend)];
    }
    assert rows[..|rows|] == rows;
    s := DashboardSummary(totalRevenue, totalSpend, Entries(channelMap, order));
  }

  /** `Array.from(channelMap.entries()).map(...)`, with the map's insertion order given. */
  function Entries(channelMap: map<string, Totals>, order: seq<string>): (r: seq<ChannelSummary>)
    requires forall c :: c in order ==> c in channelMap
    ensures |r| == |order|
    ensures forall k :: 0 <= k < |order| ==>
      r[k] == ChannelSummary(order[k], channelMap[order[k]].revenue, channelMap[order[k]].spend)
  {
    if order == [] then []
    else
      var c := order[0];
      [ChannelSummary(c, channelMap[c].revenue, channelMap[c].spend)] + Entries(channelMap, order[1..])
  }

  /** The KPI response of the dashboard route. */
  datatype DashboardResponse = DashboardResponse(
    totalRevenue: real, totalSpend: real, roi: real, conversionRate: real,
    budgetUtilization: real, revenueByChannel: seq<ChannelSummary>)

  /** The dashboard route: the summary's totals and channel list, their guarded ROI, and the
      two fixed placeholder KPIs. */
  function Respond(summary: DashboardSummary): (r: DashboardResponse)
    ensures r.totalRevenue == summary.totalRevenue && r.totalSpend == summary.totalSpend
    ensures r.revenueByChannel == summary.revenueByChannel
    ensures r.roi == GuardedRoi(summary.totalRevenue, summary.totalSpend)
    ensures r.conversionRate == 3.2 && r.budgetUtilization == 78.0
  {
    DashboardResponse(summary.totalRevenue, summary.totalSpend,
      GuardedRoi(summary.totalRevenue, summary.totalSpend), 3.2, 78.0, summary.revenueByChannel)
  }

  /** Every channel of some row is listed, and nothing else is. */
  lemma {:induction false} ChannelsExact(rows: seq<SummaryRow>)
    ensures forall c :: c in Channels(rows) <==> exists i :: 0 <= i < |rows| && rows[i].channel == c
    decreases |rows|
  {
    if rows != [] {
      var prefix := rows[..|rows| - 1];
      ChannelsExact(prefix);
      forall c ensures c in Channels(rows) <==> exists i :: 0 <= i < |rows| && rows[i].channel == c {
        if c in Channels(rows) && c != rows[|rows| - 1].channel {
          assert c in Channels(prefix);
          var i :| 0 <= i < |prefix| && prefix[i].channel == c;
          assert rows[i] == prefix[i];
        }
        if exists i :: 0 <= i < |rows| && rows[i].channel == c {
          var i :| 0 <= i < |rows| && rows[i].channel == c;
          if i < |prefix| {
            assert prefix[i] == rows[i];
          }
        }
      }
    }
  }

  /** No channel is listed twice. */
  lemma {:induction false} ChannelsDistinct(rows: seq<SummaryRow>)
    ensures Distinct(Channels(rows))
    decreases |rows|
  {
    if rows != [] {
      ChannelsDistinct(rows[..|rows| - 1]);
    }
  }

  /** The index of the first row of channel `c`. */
  function FirstIndex(rows: seq<SummaryRow>, c: string): (i: nat)
    requires c in Channels(rows)
    ensures i < |rows| && rows[i].channel == c
    ensures forall j :: 0 <= j < i ==> rows[j].channel != c
    decreases |rows|
  {
    var prefix := rows[..|rows| - 1];
    if c in Channels(prefix) then
      var i := FirstIndex(prefix, c);
      assert forall j :: 0 <= j <= i ==> rows[j] == prefix[j];
      i
    else
      ChannelsExact(prefix);
      assert forall j :: 0 <= j < |prefix| ==> rows[j] == prefix[j];
      |rows| - 1
  }

  /** The channels are listed in the order of their first rows. */
  lemma {:induction false} ChannelsInFirstSeenOrder(rows: seq<SummaryRow>)
    ensures forall j, k :: 0 <= j < k < |Channels(rows)| ==>
      FirstIndex(rows, Channels(rows)[j]) < FirstIndex(rows, Channels(rows)[k])
    decreases |rows|
  {
    if rows != [] {
      var prefix := rows[..|rows| - 1];
      var keys := Channels(prefix);
      ChannelsInFirstSeenOrder(prefix);
      forall j, k | 0 <= j < k < |Channels(rows)|
        ensures FirstIndex(rows, Channels(rows)[j]) < FirstIndex(rows, Channels(rows)[k])
      {
        var cj, ck := Channels(rows)[j], Channels(rows)[k];
        assert cj == keys[j] && cj in keys;
        assert FirstIndex(rows, cj) == FirstIndex(prefix, cj);
        if k < |keys| {
          assert ck == keys[k] && ck in keys;
          assert FirstIndex(rows, ck) == FirstIndex(prefix, ck);
        } else {
          assert ck !in keys;
          assert FirstIndex(rows, ck) == |rows| - 1;
        }
      }
    }
  }

  /** The sum of one measure's channel totals over a list of channels. */
  function SumOverChannels(keys: seq<string>, rows: seq<SummaryRow>, m: Measure): real
  {
    if keys == [] then 0.0
    else SumOverChannels(keys[..|keys| - 1], rows, m) + ChannelTotal(rows, keys[|keys| - 1], m)
  }

  /** One more row adds its value to exactly the one listed channel it belongs to. */
  lemma {:induction false} SumOverChannelsAddRow(keys: seq<string>, rows: seq<SummaryRow>, x: SummaryRow, m: Measure)
    requires Distinct(keys)
    ensures SumOverChannels(keys, rows + [x], m) ==
      SumOverChannels(keys, rows, m) + (if x.channel in keys then Value(x, m) else 0.0)
    decreases |keys|
  {
    if keys != [] {
      var front := keys[..|keys| - 1];
      var c := keys[|keys| - 1];
      assert (rows + [x])[..|rows + [x]| - 1] == rows;
      assert Distinct(front);
      SumOverChannelsAddRow(front, rows, x, m);
      assert c !in front;
      assert x.channel in keys <==> x.channel in front || x.channel == c;
    }
  }

  /** The channel totals add up to the overall total: the rows are partitioned by channel. */
  lemma {:induction false} ChannelTotalsPartition(rows: seq<SummaryRow>, m: Measure)
    ensures SumOverChannels(Channels(rows), rows, m) == Total(rows, m)
    decreases |rows|
  {
    if rows != [] {
      var prefix := rows[..|rows| - 1];
      var x := rows[|rows| - 1];
      var keys := Channels(prefix);
      assert rows == prefix + [x];
      ChannelTotalsPartition(prefix, m);
      ChannelsDistinct(prefix);
      SumOverChannelsAddRow(keys, prefix, x, m);
      if x.channel !in keys {
        ChannelTotalAbsent(prefix, x.channel, m);
        assert (keys + [x.channel])[..|keys|] == keys;
      }
    }
  }
}
