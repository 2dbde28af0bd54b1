/** The shared record shapes: a proposed allocation of spend to a channel (the items of the
    budget-simulation request), a campaign, and one daily metric row of a campaign. Decimal
    strings read from the database are modelled as already-parsed reals. */
module Schema {

  /** One `{ channel, amount }` item of a budget-simulation request. The request schema only
      asks for a string and a number: an empty channel or a negative amount is accepted. */
  datatype Allocation = Allocation(channel: string, amount: real)

  /** The campaign fields the modelled code reads. `status` is free text
      ("active", "paused", "completed" by convention). */
  datatype Campaign = Campaign(id: int, name: string, status: string, channel: string)

  /** The spend and revenue of one daily metric row. */
  datatype MetricRow = MetricRow(spend: real, revenue: real)

  /** The sum of the amounts, folded from the left as `reduce((acc, a) => acc + a.amount, 0)` does. */
  function TotalAmount(allocations: seq<Allocation>): real
  {
    if allocations == [] then 0.0
    else TotalAmount(allocations[..|allocations| - 1]) + allocations[|allocations| - 1].amount
  }

  /** The total of a concatenation is the sum of the totals. */
  lemma {:induction false} TotalAmountConcat(a: seq<Allocation>, b: seq<Allocation>)
    ensures TotalAmount(a + b) == TotalAmount(a) + TotalAmount(b)
    decreases |b|
  {
    if b == [] {
      assert a + b == a;
    } else {
      var b' := b[..|b| - 1];
      assert (a + b)[..|a + b| - 1] == a + b';
      TotalAmountConcat(a, b');
    }
  }
}
