/**
 * The printable report: status counts, the resolution rate, the top categories with their shares,
 * the recommendation naming the busiest category, and the pending backlog.
 */
module ReportView {
  import opened Wrappers
  import opened MockData
  import opened Requests
  import opened Categories

  /** `part` as a percentage of `whole`, exactly (the two-decimal rendering is not modelled). */
  function Percentage(part: nat, whole: nat): (r: real)
    requires whole > 0
    ensures r * whole as real == 100.0 * part as real
    ensures part <= whole ==> 0.0 <= r <= 100.0
    ensures part > 0 ==> r > 0.0
  {
    100.0 * part as real / whole as real
  }

  /** `resolutionRate`: zero when there are no requests, without dividing; otherwise the percentage. */
  function ResolutionRate(resolved: nat, total: nat): (r: real)
    ensures total == 0 ==> r == 0.0
    ensures total > 0 ==> r * total as real == 100.0 * resolved as real
    ensures resolved <= total ==> 0.0 <= r <= 100.0
  {
    if total > 0 then Percentage(resolved, total) else 0.0
  }

  /** All resolved means a rate of 100, none resolved a rate of 0. */
  lemma ResolutionRateExtremes(total: nat)
    ensures ResolutionRate(0, total) == 0.0
    ensures total > 0 ==> ResolutionRate(total, total) == 100.0
  {
  }

  datatype Report = Report(
    totalRequests: nat,
    resolvedRequests: nat,
    pendingRequests: nat,
    inProgressRequests: nat,
    resolutionRate: real,
    topCategories: seq<CategoryEntry>,
    /** `topCategories[0]?.[0]`: absent when there is no category. */
    highestVolume: Option<string>,
    /** The figure in 'Reduce Pending Backlog'. */
    backlog: nat)

  /**
   * Computes the report for `rs`. The status counts add up to the total, the rate lies between 0 and
   * 100, the recommended category has the most requests of any, and the backlog is the number of
   * submitted requests.
   */
  method BuildReport(rs: seq<ServiceRequest>) returns (report: Report)
    ensures report.totalRequests == |rs|
    ensures report.resolvedRequests == CountStatus(rs, Resolved)
    ensures report.pendingRequests == CountStatus(rs, Submitted)
    ensures report.inProgressRequests == CountStatus(rs, InProgress)
    ensures report.pendingRequests + report.inProgressRequests + report.resolvedRequests == report.totalRequests
    ensures report.resolutionRate == ResolutionRate(report.resolvedRequests, report.totalRequests)
    ensures 0.0 <= report.resolutionRate <= 100.0
    ensures report.topCategories == TopCategories(rs)
    ensures report.highestVolume.None? <==> rs == []
    ensures report.highestVolume.Some? ==>
              forall k :: Occurrences(rs, k) <= Occurrences(rs, report.highestVolume.value)
    ensures report.backlog == report.pendingRequests
  {
    var total := |rs|;
    var resolved := CountStatus(rs, Resolved);
    var pending := CountStatus(rs, Submitted);
    var inProgress := CountStatus(rs, InProgress);
    StatusCountsPartition(rs);
    var rate := ResolutionRate(resolved, total);
    var top := RankCategories(rs);
    var highest := if top == [] then None else Some(top[0].name);
    HighestVolumeSpec(rs);
    report := Report(total, resolved, pending, inProgress, rate, top, highest, pending);
  }

  /** Each listed category's share of all requests is positive and at most 100 percent. */
  lemma CategorySharesBounded(rs: seq<ServiceRequest>)
    ensures forall i :: 0 <= i < |TopCategories(rs)| ==>
              |rs| > 0 && 0.0 < Percentage(TopCategories(rs)[i].count, |rs|) <= 100.0
  {
    TopCategoriesFaithful(rs);
    forall i | 0 <= i < |TopCategories(rs)|
      ensures |rs| > 0 && 0.0 < Percentage(TopCategories(rs)[i].count, |rs|) <= 100.0
    {
      EntryWithinSum(TopCategories(rs), i);
    }
  }

  /** On the seed one of three requests is resolved. */
  lemma SeedResolutionRate()
    ensures ResolutionRate(CountStatus(InitialRequests, Resolved), |InitialRequests|) * 3.0 == 100.0
  {
    SeedOnePerStatus();
  }
}
