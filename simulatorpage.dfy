/** The budget simulator page (client/src/pages/Simulator.tsx): the initial allocation, the
    total budget shown above the sliders, and the slider update. */
module SimulatorPage {
  import opened Wrappers
  import opened Seqs
  import opened Schema
  import opened Roi
  import opened Simulation

  /** The allocation the page starts from. */
  const InitialAllocation: seq<Allocation> := [
    Allocation("Social", 5000.0),
    Allocation("Search", 8000.0),
    Allocation("Email", 2000.0),
    Allocation("Display", 4000.0)
  ]

  /** The channel names of an allocation list, in order. */
  function ChannelNames(allocations: seq<Allocation>): (names: seq<string>)
    ensures |names| == |allocations|
    ensures forall i :: 0 <= i < |allocations| ==> names[i] == allocations[i].channel
  {
    if allocations == [] then []
    else ChannelNames(allocations[..|allocations| - 1]) + [allocations[|allocations| - 1].channel]
  }

  /** The slider's range and step: `min="0" max="20000" step="500"`. */
  predicate OnSliderGrid(x: real)
  {
    0.0 <= x <= 20000.0 && x == x.Floor as real && x.Floor % 500 == 0
  }

  /** `prev.map(a => a.channel === channel ? { ...a, amount: value } : a)`. */
  function SliderChange(allocations: seq<Allocation>, channel: string, value: real): (r: seq<Allocation>)
    ensures |r| == |allocations|
    ensures forall i :: 0 <= i < |r| ==> r[i].channel == allocations[i].channel
    ensures forall i :: 0 <= i < |r| && allocations[i].channel == channel ==> r[i].amount == value
    ensures forall i :: 0 <= i < |r| && allocations[i].channel != channel ==> r[i] == allocations[i]
  {
    if allocations == [] then []
    else
      var a := allocations[|allocations| - 1];
      SliderChange(allocations[..|allocations| - 1], channel, value)
        + [if a.channel == channel then a.(amount := value) else a]
  }

  /** The page's allocation keeps its channel list, names and order, through any update. */
  lemma SliderChangeKeepsChannels(allocations: seq<Allocation>, channel: string, value: real)
    ensures ChannelNames(SliderChange(allocations, channel, value)) == ChannelNames(allocations)
  {
  }

  /** Moving the slider of a channel that is not listed changes nothing. */
  lemma SliderChangeUnlisted(allocations: seq<Allocation>, channel: string, value: real)
    requires channel !in ChannelNames(allocations)
    ensures SliderChange(allocations, channel, value) == allocations
  {
    var r := SliderChange(allocations, channel, value);
    forall i | 0 <= i < |allocations| ensures r[i] == allocations[i] {
      assert ChannelNames(allocations)[i] == allocations[i].channel;
    }
  }

  /** With distinct channel names, moving the slider of the channel at index `k` changes the
      total budget by the difference between the new and the old amount. */
  lemma {:induction false} SliderChangeTotal(allocations: seq<Allocation>, channel: string, value: real, k: nat)
    requires Distinct(ChannelNames(allocations))
    requires k < |allocations| && allocations[k].channel == channel
    ensures TotalAmount(SliderChange(allocations, channel, value))
      == TotalAmount(allocations) - allocations[k].amount + value
    decreases |allocations|
  {
    var n := |allocations| - 1;
    var prefix := allocations[..n];
    var names := ChannelNames(allocations);
    var r := SliderChange(allocations, channel, value);
    assert ChannelNames(prefix) == names[..n];
    assert r[..n] == SliderChange(prefix, channel, value);
    if k == n {
      assert channel !in ChannelNames(prefix) by {
        forall j | 0 <= j < n ensures names[j] != channel {
          assert names[n] == channel;
        }
      }
      SliderChangeUnlisted(prefix, channel, value);
      assert TotalAmount(r) == TotalAmount(prefix) + value;
    } else {
      assert names[n] != channel by {
        assert names[k] == channel;
      }
      assert Distinct(ChannelNames(prefix));
      SliderChangeTotal(prefix, channel, value, k);
      assert r[n] == allocations[n];
      assert TotalAmount(r) == TotalAmount(r[..n]) + allocations[n].amount;
    }
  }

  /** When every amount and the new value lie on the slider's grid, every amount still does. */
  lemma SliderChangeStaysOnGrid(allocations: seq<Allocation>, channel: string, value: real)
    requires forall i :: 0 <= i < |allocations| ==> OnSliderGrid(allocations[i].amount)
    requires OnSliderGrid(value)
    ensures forall i :: 0 <= i < |allocations| ==> OnSliderGrid(SliderChange(allocations, channel, value)[i].amount)
  {
  }

  /** The initial allocation: four distinct channels on the slider grid, totalling 19000. */
  lemma InitialAllocationFacts()
    ensures |InitialAllocation| == 4 && Distinct(ChannelNames(InitialAllocation))
    ensures forall i :: 0 <= i < 4 ==> OnSliderGrid(InitialAllocation[i].amount)
    ensures TotalAmount(InitialAllocation) == 19000.0
  {
    var a := InitialAllocation;
    assert ChannelNames(a) == ["Social", "Search", "Email", "Display"];
    assert a[..3][..2][..1][..0] == [];
    assert TotalAmount(a[..1]) == 5000.0;
    assert TotalAmount(a[..2]) == 13000.0 by { assert a[..2][..1] == a[..1]; }
    assert TotalAmount(a[..3]) == 15000.0 by { assert a[..3][..2] == a[..2]; }
    assert a[..4] == a;
  }

  /** Simulating the initial allocation: revenues 17500, 33600, 10000 and 8400, total revenue
      69500 against a spend of 19000, so a total ROI of 50500/19000 * 100 (about 265.79). */
  lemma InitialAllocationProjection()
    ensures Project(InitialAllocation[0]).projectedRevenue == 17500.0
    ensures Project(InitialAllocation[1]).projectedRevenue == 33600.0
    ensures Project(InitialAllocation[2]).projectedRevenue == 10000.0
    ensures Project(InitialAllocation[3]).projectedRevenue == 8400.0
    ensures TotalProjectedRevenue(InitialAllocation) == 69500.0
    ensures GuardedRoi(TotalProjectedRevenue(InitialAllocation), TotalAmount(InitialAllocation))
      == 50500.0 / 19000.0 * 100.0
  {
    var a := InitialAllocation;
    InitialAllocationFacts();
    assert a[..3][..2][..1][..0] == [];
    assert TotalProjectedRevenue(a[..1]) == 17500.0;
    assert TotalProjectedRevenue(a[..2]) == 51100.0 by { assert a[..2][..1] == a[..1]; }
    assert TotalProjectedRevenue(a[..3]) == 61100.0 by { assert a[..3][..2] == a[..2]; }
    assert a[..4] == a;
  }

  /** A channel the table does not list, such as "TikTok", projects at the default
      efficiency: 1000 gives a revenue of 3000 and an ROI of 200 percent. */
  lemma UnknownChannelProjection()
    ensures Project(Allocation("TikTok", 1000.0)).projectedRevenue == 3000.0
    ensures Project(Allocation("TikTok", 1000.0)).projectedROI == Some(200.0)
  {
  }
}
