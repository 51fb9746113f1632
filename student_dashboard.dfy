/**
 * The student view: the student's own requests, newest first, two status badges, and the form that
 * files a new request after a simulated delay.
 */
module StudentDashboard {
  import opened Wrappers
  import opened MockData
  import opened Sequences
  import opened Requests
  import Text

  function OwnedBy(uid: string): ServiceRequest -> bool {
    (r: ServiceRequest) => r.studentId == uid
  }

  /** `myRequests`: the requests whose `studentId` is the user's id, newest first. */
  function MyRequests(rs: seq<ServiceRequest>, user: User): seq<ServiceRequest> {
    SortNewestFirst(Filter(rs, OwnedBy(user.id)))
  }

  /**
   * The list holds exactly the user's requests, each as often as in the store, newest first, with
   * same-date requests in store order.
   */
  lemma MyRequestsSpec(rs: seq<ServiceRequest>, user: User)
    ensures forall x :: multiset(MyRequests(rs, user))[x] == if x.studentId == user.id then multiset(rs)[x] else 0
    ensures forall i, j :: 0 <= i < j < |MyRequests(rs, user)| ==>
              !Text.LexLess(MyRequests(rs, user)[i].date, MyRequests(rs, user)[j].date)
    ensures forall d :: Filter(MyRequests(rs, user), OnDate(d)) == Filter(Filter(rs, OwnedBy(user.id)), OnDate(d))
  {
    var mine := Filter(rs, OwnedBy(user.id));
    SortNewestFirstSpec(mine);
    forall x ensures multiset(MyRequests(rs, user))[x] == if x.studentId == user.id then multiset(rs)[x] else 0 {
      FilterMultiset(rs, OwnedBy(user.id), x);
    }
  }

  /** The 'Pending' and 'Resolved' badges never add up to more than the list's length. */
  lemma BadgesBounded(rs: seq<ServiceRequest>, user: User)
    ensures CountStatus(MyRequests(rs, user), Submitted) + CountStatus(MyRequests(rs, user), Resolved)
            <= |MyRequests(rs, user)|
  {
    StatusCountsPartition(MyRequests(rs, user));
  }

  /**
   * Adding one of the user's own new requests to the front of the store adds it to the list and
   * raises the 'Pending' badge by one; the 'Resolved' badge stays.
   */
  lemma OwnSubmissionCounted(rs: seq<ServiceRequest>, user: User, req: ServiceRequest)
    requires req.studentId == user.id && req.status == Submitted
    ensures multiset(MyRequests([req] + rs, user)) == multiset(MyRequests(rs, user)) + multiset{req}
    ensures CountStatus(MyRequests([req] + rs, user), Submitted) == CountStatus(MyRequests(rs, user), Submitted) + 1
    ensures CountStatus(MyRequests([req] + rs, user), Resolved) == CountStatus(MyRequests(rs, user), Resolved)
  {
    var mine := Filter(rs, OwnedBy(user.id));
    FilterCons(req, rs, OwnedBy(user.id));
    assert Filter([req] + rs, OwnedBy(user.id)) == [req] + mine;
    CountStatusSorted([req] + mine, Submitted);
    CountStatusSorted([req] + mine, Resolved);
    CountStatusSorted(mine, Submitted);
    CountStatusSorted(mine, Resolved);
    FilterCons(req, mine, HasStatus(Submitted));
    FilterCons(req, mine, HasStatus(Resolved));
  }

  /** Another student's request never appears in the user's list. */
  lemma OthersSubmissionHidden(rs: seq<ServiceRequest>, user: User, req: ServiceRequest)
    requires req.studentId != user.id
    ensures MyRequests([req] + rs, user) == MyRequests(rs, user)
  {
    FilterCons(req, rs, OwnedBy(user.id));
    assert !OwnedBy(user.id)(req);
    assert Filter([req] + rs, OwnedBy(user.id)) == Filter(rs, OwnedBy(user.id));
  }

  /** The three form fields. */
  datatype RequestForm = RequestForm(serviceType: string, location: string, description: string)

  const EmptyForm := RequestForm("", "", "")

  /** `!formData.serviceType || !formData.description`: an empty type or description blocks submission. */
  predicate Incomplete(form: RequestForm) {
    form.serviceType == [] || form.description == []
  }

  /**
   * The request the timer files: id from the clock, the user's id and name, the form's fields, status
   * 'Submitted', no remarks, and as date the part of the ISO timestamp before the first 'T'.
   */
  function NewRequest(user: User, form: RequestForm, freshId: string, isoNow: string): (r: ServiceRequest)
    ensures r.id == freshId && r.studentId == user.id && r.studentName == user.name
    ensures r.serviceType == form.serviceType && r.location == Some(form.location)
    ensures r.description == form.description
    ensures r.status == Submitted && r.remarks == None
    ensures r.date <= isoNow && 'T' !in r.date
  {
    ServiceRequest(freshId, user.id, user.name, form.serviceType, Some(form.location), form.description,
                   Submitted, Text.BeforeFirst(isoNow, 'T'), None)
  }

  /** For a timestamp `YYYY-MM-DDThh:mm:ss.sssZ` the new request is dated `YYYY-MM-DD`. */
  lemma NewRequestDate(user: User, form: RequestForm, freshId: string, day: string, time: string)
    requires 'T' !in day
    ensures NewRequest(user, form, freshId, day + "T" + time).date == day
  {
    Text.BeforeFirstOf(day, 'T', time);
  }

  /** A submission the timer will complete: the user and form the handler saw. */
  datatype Scheduled = Scheduled(user: User, form: RequestForm)

  class StudentPanel {
    var isSubmitting: bool
    var formData: RequestForm
    /** The submissions whose 800 ms timer has not fired yet, oldest first. */
    var scheduled: seq<Scheduled>

    constructor ()
      ensures !isSubmitting && formData == EmptyForm && scheduled == []
      ensures Valid()
    {
      isSubmitting := false;
      formData := EmptyForm;
      scheduled := [];
    }

    /** Every pending submission carries a complete form. */
    predicate Valid()
      reads this`scheduled
    {
      forall i :: 0 <= i < |scheduled| ==> !Incomplete(scheduled[i].form)
    }

    /** The submit button's `disabled`. */
    predicate SubmitDisabled()
      reads this
    {
      isSubmitting || Incomplete(formData)
    }

    method SetServiceType(v: string)
      modifies this`formData
      ensures formData == old(formData).(serviceType := v)
    {
      formData := formData.(serviceType := v);
    }

    method SetLocation(v: string)
      modifies this`formData
      ensures formData == old(formData).(location := v)
    {
      formData := formData.(location := v);
    }

    method SetDescription(v: string)
      modifies this`formData
      ensures formData == old(formData).(description := v)
    {
      formData := formData.(description := v);
    }

    /**
     * An incomplete form is ignored. Otherwise the panel shows 'Submitting...' and a timer is
     * scheduled with the current user and form; the form itself is not cleared yet.
     */
    method HandleSubmit(user: User)
      requires Valid()
      modifies this`isSubmitting, this`scheduled
      ensures Valid()
      ensures Incomplete(formData) ==> isSubmitting == old(isSubmitting) && scheduled == old(scheduled)
      ensures !Incomplete(formData) ==> isSubmitting && scheduled == old(scheduled) + [Scheduled(user, formData)]
    {
      if Incomplete(formData) {
        return;
      }
      isSubmitting := true;
      scheduled := scheduled + [Scheduled(user, formData)];
    }

    /**
     * The oldest timer fires: it files the request built from what it captured, clears the form and
     * turns 'Submitting...' off. With no timer pending nothing happens. Because only complete forms
     * are scheduled, the filed request always has a service type and a description.
     */
    method TimerFires(freshId: string, isoNow: string) returns (created: Option<ServiceRequest>)
      requires Valid()
      modifies this
      ensures Valid()
      ensures created.Some? ==> created.value.serviceType != [] && created.value.description != []
      ensures old(scheduled) == [] ==>
                created == None && isSubmitting == old(isSubmitting) && formData == old(formData) && scheduled == []
      ensures old(scheduled) != [] ==>
                && created == Some(NewRequest(old(scheduled)[0].user, old(scheduled)[0].form, freshId, isoNow))
                && scheduled == old(scheduled)[1..] && formData == EmptyForm && !isSubmitting
    {
      if scheduled == [] {
        return None;
      }
      var job := scheduled[0];
      created := Some(NewRequest(job.user, job.form, freshId, isoNow));
      scheduled := scheduled[1..];
      formData := EmptyForm;
      isSubmitting := false;
    }
  }
}
