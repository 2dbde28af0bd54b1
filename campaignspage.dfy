/** The campaigns page (client/src/pages/Campaigns.tsx): the health badge lookup and the
    status filter over the campaign list. Either list is absent (None) until its query has
    returned. */
module CampaignsPage {
  import opened Wrappers
  import opened Seqs
  import opened Schema
  import opened Health

  /** `health.find(h => h.id === id)`: the first entry for the campaign. */
  function FindHealth(health: seq<CampaignHealth>, id: int): (r: Option<CampaignHealth>)
    ensures r.None? <==> forall k :: 0 <= k < |health| ==> health[k].id != id
    ensures r.Some? ==>
      exists k :: 0 <= k < |health| && health[k] == r.value && health[k].id == id &&
        forall j :: 0 <= j < k ==> health[j].id != id
  {
    if health == [] then None
    else if health[0].id == id then Some(health[0])
    else
      var r := FindHealth(health[1..], id);
      assert forall k :: 1 <= k < |health| ==> health[1..][k - 1] == health[k];
      if r.Some? then
        var k :| 0 <= k < |health[1..]| && health[1..][k] == r.value && health[1..][k].id == id &&
          forall j :: 0 <= j < k ==> health[1..][j].id != id;
        assert health[k + 1] == r.value;
        r
      else r
  }

  /** `health?.find(h => h.id === id)?.status || 'healthy'`: the status of the first entry
      for the campaign, and Healthy when the health list is absent or has no entry for it. */
  function GetHealthStatus(health: Option<seq<CampaignHealth>>, id: int): (s: HealthStatus)
    ensures health.None? ==> s == Healthy
    ensures health.Some? && (forall k :: 0 <= k < |health.value| ==> health.value[k].id != id) ==> s == Healthy
    ensures forall k ::
      (health.Some? && 0 <= k < |health.value| && health.value[k].id == id &&
       forall j :: 0 <= j < k ==> health.value[j].id != id)
      ==> s == health.value[k].status
  {
    if health.None? then Healthy
    else
      match FindHealth(health.value, id)
      case None => Healthy
      case Some(h) => h.status
  }

  /** The filter callback: `statusFilter === "all"` keeps everything, otherwise the status
      must equal the filter. */
  function Matches(statusFilter: string): Campaign -> bool
  {
    (c: Campaign) => statusFilter == "all" || c.status == statusFilter
  }

  /** `campaigns?.filter(...)`. */
  function FilteredCampaigns(campaigns: Option<seq<Campaign>>, statusFilter: string): (r: Option<seq<Campaign>>)
    ensures r.None? <==> campaigns.None?
    ensures statusFilter == "all" ==> r == campaigns
    ensures r.Some? && statusFilter != "all" ==>
      (forall c :: c in r.value <==> c in campaigns.value && c.status == statusFilter)
    ensures r.Some? ==> IsSubsequence(r.value, campaigns.value)
  {
    match campaigns
    case None => None
    case Some(list) =>
      FilterIsSubsequence(list, Matches(statusFilter));
      assert statusFilter == "all" ==> Filter(list, Matches(statusFilter)) == list by {
        if statusFilter == "all" { FilterKeepsAll(list, Matches(statusFilter)); }
      }
      Some(Filter(list, Matches(statusFilter)))
  }

  /** Filtering by a status keeps every campaign with that status: the `statusFilter`
      campaigns of `a + b` are those of `a` followed by those of `b`. */
  lemma FilteredCampaignsConcat(a: seq<Campaign>, b: seq<Campaign>, statusFilter: string)
    ensures FilteredCampaigns(Some(a + b), statusFilter).value ==
      FilteredCampaigns(Some(a), statusFilter).value + FilteredCampaigns(Some(b), statusFilter).value
  {
    FilterConcat(a, b, Matches(statusFilter));
  }
}
