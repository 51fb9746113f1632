/**
 * Orderings and counts over service requests that several views share: the newest-first sort
 * (`(a, b) => new Date(b.date).getTime() - new Date(a.date).getTime()`) and status counts
 * (`requests.filter(r => r.status === s).length`).
 */
module Requests {
  import opened Wrappers
  import opened MockData
  import opened Sequences
  import Text

  /** `a` may stand before `b` when its date is not earlier than `b`'s. */
  function NewestFirst(a: ServiceRequest, b: ServiceRequest): bool {
    !Text.LexLess(a.date, b.date)
  }

  lemma NewestFirstIsPreorder()
    ensures Total(NewestFirst) && Transitive(NewestFirst)
  {
    forall a: ServiceRequest, b: ServiceRequest ensures NewestFirst(a, b) || NewestFirst(b, a) {
      Text.LexAsymmetric(a.date, b.date);
    }
    forall a: ServiceRequest, b: ServiceRequest, c: ServiceRequest | NewestFirst(a, b) && NewestFirst(b, c)
      ensures NewestFirst(a, c)
    {
      Text.LexTrichotomy(a.date, b.date);
      if Text.LexLess(a.date, c.date) && Text.LexLess(b.date, a.date) {
        Text.LexTransitive(b.date, a.date, c.date);
      }
    }
  }

  /** Under the newest-first comparator two requests tie exactly when they carry the same date. */
  lemma {:induction false} NewestFirstTies(e: ServiceRequest, x: ServiceRequest)
    ensures TiedWith(e, NewestFirst)(x) <==> x.date == e.date
  {
    assert TiedWith(e, NewestFirst)(x) == (NewestFirst(x, e) && NewestFirst(e, x));
    Text.LexTrichotomy(x.date, e.date);
    Text.LexAsymmetric(x.date, e.date);
  }

  function OnDate(d: string): ServiceRequest -> bool {
    (r: ServiceRequest) => r.date == d
  }

  function SortNewestFirst(rs: seq<ServiceRequest>): seq<ServiceRequest> {
    StableSort(rs, NewestFirst)
  }

  /**
   * The newest-first sort is a permutation, puts later dates first, and keeps requests with the
   * same date in their original order.
   */
  lemma SortNewestFirstSpec(rs: seq<ServiceRequest>)
    ensures multiset(SortNewestFirst(rs)) == multiset(rs)
    ensures forall i, j :: 0 <= i < j < |SortNewestFirst(rs)| ==>
              !Text.LexLess(SortNewestFirst(rs)[i].date, SortNewestFirst(rs)[j].date)
    ensures forall d :: Filter(SortNewestFirst(rs), OnDate(d)) == Filter(rs, OnDate(d))
  {
    NewestFirstIsPreorder();
    StableSortSorted(rs, NewestFirst);
    forall d ensures Filter(SortNewestFirst(rs), OnDate(d)) == Filter(rs, OnDate(d)) {
      var e := ServiceRequest("", "", "", "", None, "", Submitted, d, None);
      StableSortKeepsTies(rs, e, NewestFirst);
      var sorted := SortNewestFirst(rs);
      forall i | 0 <= i < |sorted| ensures TiedWith(e, NewestFirst)(sorted[i]) == OnDate(d)(sorted[i]) {
        NewestFirstTies(e, sorted[i]);
      }
      forall i | 0 <= i < |rs| ensures TiedWith(e, NewestFirst)(rs[i]) == OnDate(d)(rs[i]) {
        NewestFirstTies(e, rs[i]);
      }
      FilterAgree(sorted, TiedWith(e, NewestFirst), OnDate(d));
      FilterAgree(rs, TiedWith(e, NewestFirst), OnDate(d));
    }
  }

  function HasStatus(s: Status): ServiceRequest -> bool {
    (r: ServiceRequest) => r.status == s
  }

  function CountStatus(rs: seq<ServiceRequest>, s: Status): nat {
    |Filter(rs, HasStatus(s))|
  }

  /** Sorting does not change how many requests have a given status. */
  lemma CountStatusSorted(rs: seq<ServiceRequest>, s: Status)
    ensures CountStatus(SortNewestFirst(rs), s) == CountStatus(rs, s)
  {
    FilterPermutation(SortNewestFirst(rs), rs, HasStatus(s));
  }

  /** Every request has exactly one of the three statuses, so the three counts add up to the total. */
  lemma {:induction false} StatusCountsPartition(rs: seq<ServiceRequest>)
    ensures CountStatus(rs, Submitted) + CountStatus(rs, InProgress) + CountStatus(rs, Resolved) == |rs|
  {
    if rs != [] {
      StatusCountsPartition(rs[1..]);
    }
  }

  /** The seed holds exactly one request of each status. */
  lemma SeedOnePerStatus()
    ensures forall s :: CountStatus(InitialRequests, s) == 1
  {
    var rs := InitialRequests;
    assert rs[1..][1..][1..] == [];
    forall s ensures CountStatus(rs, s) == 1 {
      assert Filter(rs, HasStatus(s)) == [rs[match s case Submitted => 0 case InProgress => 1 case Resolved => 2]];
    }
  }
}
