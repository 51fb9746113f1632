/**
 * The staff view: the filtered, newest-first list of every request, and the dialog through which
 * staff set a request's status and remarks.
 */
module StaffDashboard {
  import opened Wrappers
  import opened MockData
  import opened Sequences
  import opened Requests
  import Text
  import App

  /** The status filter buttons: 'All' or one status. */
  datatype StatusFilter = All | Only(status: Status)

  predicate MatchesStatus(filter: StatusFilter, r: ServiceRequest) {
    filter == All || filter == Only(r.status)
  }

  /** The lower-cased query occurs in the lower-cased student name, service type or id. */
  predicate MatchesSearch(r: ServiceRequest, query: string) {
    var q := Text.Lower(query);
    Text.Contains(Text.Lower(r.studentName), q)
    || Text.Contains(Text.Lower(r.serviceType), q)
    || Text.Contains(Text.Lower(r.id), q)
  }

  function Shown(filter: StatusFilter, query: string): ServiceRequest -> bool {
    (r: ServiceRequest) => MatchesStatus(filter, r) && MatchesSearch(r, query)
  }

  /** `filteredRequests`. */
  function FilteredRequests(rs: seq<ServiceRequest>, filter: StatusFilter, query: string): seq<ServiceRequest> {
    SortNewestFirst(Filter(rs, Shown(filter, query)))
  }

  /**
   * A request is listed exactly when it passes both the status filter and the search, and then
   * as many times as it occurs in the store.
   */
  lemma FilteredRequestsMembers(rs: seq<ServiceRequest>, filter: StatusFilter, query: string)
    ensures forall x :: multiset(FilteredRequests(rs, filter, query))[x] ==
              if MatchesStatus(filter, x) && MatchesSearch(x, query) then multiset(rs)[x] else 0
    ensures forall x :: x in FilteredRequests(rs, filter, query) <==>
              x in rs && MatchesStatus(filter, x) && MatchesSearch(x, query)
  {
    var shown := Filter(rs, Shown(filter, query));
    SortNewestFirstSpec(shown);
    forall x ensures multiset(FilteredRequests(rs, filter, query))[x] ==
                     if MatchesStatus(filter, x) && MatchesSearch(x, query) then multiset(rs)[x] else 0 {
      FilterMultiset(rs, Shown(filter, query), x);
    }
  }

  /** The list is newest first, and requests of the same date keep the store's order. */
  lemma FilteredRequestsOrder(rs: seq<ServiceRequest>, filter: StatusFilter, query: string)
    ensures forall i, j :: 0 <= i < j < |FilteredRequests(rs, filter, query)| ==>
              !Text.LexLess(FilteredRequests(rs, filter, query)[i].date, FilteredRequests(rs, filter, query)[j].date)
    ensures forall d :: Filter(FilteredRequests(rs, filter, query), OnDate(d)) ==
                        Filter(Filter(rs, Shown(filter, query)), OnDate(d))
  {
    SortNewestFirstSpec(Filter(rs, Shown(filter, query)));
  }

  /** An empty query matches every request, so 'All' with no query lists the whole store. */
  lemma EmptySearchListsAll(rs: seq<ServiceRequest>)
    ensures FilteredRequests(rs, All, "") == SortNewestFirst(rs)
    ensures multiset(FilteredRequests(rs, All, "")) == multiset(rs)
  {
    forall i | 0 <= i < |rs| ensures Shown(All, "")(rs[i]) {
      Text.ContainsEmpty(Text.Lower(rs[i].studentName));
    }
    FilterKeepsAll(rs, Shown(All, ""));
    SortNewestFirstSpec(rs);
  }

  /** The dialog's two buttons; no button sets 'Submitted'. */
  datatype DialogButton = MarkInProgress | MarkResolved

  function ButtonStatus(b: DialogButton): (s: Status)
    ensures s != Submitted
  {
    match b
    case MarkInProgress => InProgress
    case MarkResolved => Resolved
  }

  /** The call `onRequestUpdate(id, status, remarks)` that the dialog hands to the store. */
  datatype UpdateCall = UpdateCall(id: string, status: Status, remarks: Option<string>)

  /** The remarks the dialog starts with: `req.remarks || ''`. */
  function PreloadedRemarks(req: ServiceRequest): string {
    if req.remarks.Some? then req.remarks.value else ""
  }

  /**
   * Confirming the dialog without editing sends the preloaded remarks, and the store then keeps the
   * request's remarks exactly as they were while setting the chosen status.
   */
  lemma ConfirmUneditedKeepsRemarks(req: ServiceRequest, b: DialogButton)
    ensures App.UpdateRecord(req, ButtonStatus(b), Some(PreloadedRemarks(req))).remarks == req.remarks
    ensures App.UpdateRecord(req, ButtonStatus(b), Some(PreloadedRemarks(req))).status == ButtonStatus(b)
  {
  }

  class StaffPanel {
    var filterStatus: StatusFilter
    var searchQuery: string
    var selectedRequest: Option<ServiceRequest>
    var remarks: string
    var isDialogOpen: bool

    constructor ()
      ensures filterStatus == All && searchQuery == ""
      ensures selectedRequest == None && remarks == "" && !isDialogOpen
    {
      filterStatus := All;
      searchQuery := "";
      selectedRequest := None;
      remarks := "";
      isDialogOpen := false;
    }

    /** The list this panel shows for the store's requests; the store is only read. */
    function Visible(requests: seq<ServiceRequest>): seq<ServiceRequest>
      reads this
    {
      FilteredRequests(requests, filterStatus, searchQuery)
    }

    method SetFilter(f: StatusFilter)
      modifies this`filterStatus
      ensures filterStatus == f
    {
      filterStatus := f;
    }

    method SetSearchQuery(q: string)
      modifies this`searchQuery
      ensures searchQuery == q
    {
      searchQuery := q;
    }

    method SetRemarks(text: string)
      modifies this`remarks
      ensures remarks == text
    {
      remarks := text;
    }

    /** Selects the request and opens the dialog with its existing remarks, or '' when it has none. */
    method OpenActionDialog(req: ServiceRequest)
      modifies this
      ensures selectedRequest == Some(req) && remarks == PreloadedRemarks(req) && isDialogOpen
      ensures filterStatus == old(filterStatus) && searchQuery == old(searchQuery)
    {
      selectedRequest := Some(req);
      remarks := PreloadedRemarks(req);
      isDialogOpen := true;
    }

    /**
     * With no request selected nothing happens. Otherwise the selected id, the button's status and
     * the current remarks go to the store, and the dialog is closed and cleared.
     */
    method HandleStatusUpdate(button: DialogButton) returns (call: Option<UpdateCall>)
      modifies this
      ensures old(selectedRequest).None? ==>
                call == None && selectedRequest == None && remarks == old(remarks) && isDialogOpen == old(isDialogOpen)
      ensures old(selectedRequest).Some? ==>
                && call == Some(UpdateCall(old(selectedRequest).value.id, ButtonStatus(button), Some(old(remarks))))
                && !isDialogOpen && remarks == "" && selectedRequest == None
      ensures filterStatus == old(filterStatus) && searchQuery == old(searchQuery)
    {
      if selectedRequest.None? {
        return None;
      }
      call := Some(UpdateCall(selectedRequest.value.id, ButtonStatus(button), Some(remarks)));
      isDialogOpen := false;
      remarks := "";
      selectedRequest := None;
    }
  }
}
