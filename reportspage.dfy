/** The focus-area toggle of the reports page (client/src/pages/Reports.tsx):
    `prev.includes(area) ? prev.filter(a => a !== area) : [...prev, area]`. */
module ReportsPage {
  import opened Seqs

  /** The filter predicate `a => a !== area`. */
  function Other(area: string): string -> bool
  {
    (a: string) => a != area
  }

  function ToggleFocus(prev: seq<string>, area: string): (r: seq<string>)
    ensures area !in prev ==> r == prev + [area]
    ensures area in prev ==> area !in r
    ensures area in prev ==> forall x :: x in r <==> x in prev && x != area
    ensures area in prev ==> forall x :: x != area ==> multiset(r)[x] == multiset(prev)[x]
    ensures area in prev ==> IsSubsequence(r, prev)
  {
    if area in prev then
      FilterIsSubsequence(prev, Other(area));
      Filter(prev, Other(area))
    else prev + [area]
  }

  /** Toggling an area twice, starting from a list without it, restores the list. */
  lemma ToggleTwice(prev: seq<string>, area: string)
    requires area !in prev
    ensures ToggleFocus(ToggleFocus(prev, area), area) == prev
  {
    var once := prev + [area];
    assert area in once;
    FilterConcat(prev, [area], Other(area));
    FilterKeepsAll(prev, Other(area));
    assert Filter([area], Other(area)) == [];
  }

  /** From a list without duplicates, toggling never introduces one. */
  lemma ToggleKeepsDistinct(prev: seq<string>, area: string)
    requires Distinct(prev)
    ensures Distinct(ToggleFocus(prev, area))
  {
    if area in prev {
      FilterDistinct(prev, Other(area));
    }
  }
}
