/**
 * The provider's screen (pages/ProviderDashboard.tsx): the action handler that
 * turns a card's action into a status-change request, the schedule badge,
 * and the tab and online toggles.
 */
module ProviderDashboard {
  import opened Wrappers
  import opened Domain
  import JobCard

  /** A call `updateJobStatus(jobId, status[, providerId])` on the store. */
  datatype StatusRequest = StatusRequest(jobId: string, status: JobStatus, providerId: Option<string>)

  /**
   * `handleJobAction`: nothing without a user; otherwise three independent
   * tests on the action, each of which may issue one request.
   */
  function HandleJobAction(user: Option<User>, jobId: string, action: string): (r: seq<StatusRequest>)
    ensures user.None? ==> r == []
    ensures |r| <= 1
    ensures forall q :: q in r ==> q.jobId == jobId
  {
    if user.None? then []
    else
      (if action == "accept" then [StatusRequest(jobId, Accepted, Some(user.value.id))] else [])
      + (if action == "start" then [StatusRequest(jobId, InProgress, None)] else [])
      + (if action == "complete" then [StatusRequest(jobId, Completed, None)] else [])
  }

  /** The workflow order of the statuses a provider moves a job through. */
  function Rank(s: JobStatus): nat
  {
    match s
    case Pending => 0
    case Accepted => 1
    case InProgress => 2
    case Completed => 3
    case Cancelled => 4
  }

  /** The linear workflow PENDING, ACCEPTED, IN_PROGRESS, COMPLETED. */
  function Successor(s: JobStatus): (r: Option<JobStatus>)
    ensures r.Some? ==> Rank(r.value) == Rank(s) + 1 && r.value != Cancelled
  {
    match s
    case Pending => Some(Accepted)
    case Accepted => Some(InProgress)
    case InProgress => Some(Completed)
    case _ => None
  }

  /** The handler issues at most one request, binds a provider only on 'accept', and ignores other actions. */
  lemma HandlerShape(user: Option<User>, jobId: string, action: string)
    ensures |HandleJobAction(user, jobId, action)| <= 1
    ensures HandleJobAction(user, jobId, action) != [] <==>
      user.Some? && action in {"accept", "start", "complete"}
    ensures forall q :: q in HandleJobAction(user, jobId, action) ==>
      q.jobId == jobId && (q.providerId.Some? <==> action == "accept")
    ensures user.Some? && action == "accept" ==>
      HandleJobAction(user, jobId, action) == [StatusRequest(jobId, Accepted, Some(user.value.id))]
  {
  }

  /**
   * Card and handler together form the workflow: the one button a provider
   * sees on a job requests that job's successor status, a step of exactly one
   * forward; and every status that has a successor offers a button to reach it.
   */
  lemma CardThenHandlerAdvances(u: User, jobId: string, status: string)
    ensures forall a :: a in JobCard.Buttons(Provider, status) ==>
      ParseStatus(status).Some? && Successor(ParseStatus(status).value).Some? &&
      HandleJobAction(Some(u), jobId, a) ==
        [StatusRequest(jobId, Successor(ParseStatus(status).value).value, if a == "accept" then Some(u.id) else None)]
    ensures ParseStatus(status).Some? && Successor(ParseStatus(status).value).Some? ==>
      exists a :: a in JobCard.Buttons(Provider, status) &&
        |HandleJobAction(Some(u), jobId, a)| == 1 &&
        HandleJobAction(Some(u), jobId, a)[0].status == Successor(ParseStatus(status).value).value
  {
    JobCard.AtMostOneButton(Provider, status);
    if ParseStatus(status).Some? && Successor(ParseStatus(status).value).Some? {
      var a := JobCard.Buttons(Provider, status)[0];
      assert a in JobCard.Buttons(Provider, status);
    }
  }

  /** No step goes backwards or skips: the requested status is always ranked one above the shown one. */
  lemma NeverBackwards(u: User, jobId: string, status: JobStatus, a: string)
    requires a in JobCard.Buttons(Provider, StatusName(status))
    ensures |HandleJobAction(Some(u), jobId, a)| == 1
    ensures Rank(HandleJobAction(Some(u), jobId, a)[0].status) == Rank(status) + 1
  {
    CardThenHandlerAdvances(u, jobId, StatusName(status));
    StatusRoundTrip(status);
  }

  /** `myJobs.filter(j => j.status !== 'COMPLETED')`. */
  function Unfinished(jobs: seq<Job>): (r: seq<Job>)
    ensures |r| <= |jobs|
    ensures forall j :: j in r <==> j in jobs && j.status != Completed
  {
    if jobs == [] then []
    else (if jobs[0].status != Completed then [jobs[0]] else []) + Unfinished(jobs[1..])
  }

  /** The filter keeps every copy of an unfinished job and no copy of a completed one. */
  lemma {:induction false} UnfinishedCounts(jobs: seq<Job>, j: Job)
    ensures multiset(Unfinished(jobs))[j] == (if j.status == Completed then 0 else multiset(jobs)[j])
  {
    if jobs != [] {
      UnfinishedCounts(jobs[1..], j);
      assert jobs == [jobs[0]] + jobs[1..];
    }
  }

  /** The schedule badge: the number of my jobs that are not completed. */
  function ScheduleBadge(myJobs: seq<Job>): (n: nat)
    ensures n <= |myJobs|
    ensures n == 0 <==> forall k :: 0 <= k < |myJobs| ==> myJobs[k].status == Completed
    ensures n < |myJobs| <==> exists k :: 0 <= k < |myJobs| && myJobs[k].status == Completed
  {
    UnfinishedAll(myJobs);
    var r := Unfinished(myJobs);
    assert r == [] <==> forall k :: 0 <= k < |myJobs| ==> myJobs[k].status == Completed by {
      if r != [] { assert r[0] in r; }
    }
    |r|
  }

  /** The filter keeps the whole list exactly when no job in it is completed. */
  lemma {:induction false} UnfinishedAll(myJobs: seq<Job>)
    ensures |Unfinished(myJobs)| == |myJobs| <==> forall k :: 0 <= k < |myJobs| ==> myJobs[k].status != Completed
  {
    if myJobs != [] {
      UnfinishedAll(myJobs[1..]);
      assert forall k :: 1 <= k < |myJobs| ==> myJobs[k] == myJobs[1..][k - 1];
    }
  }

  datatype Tab = Market | MyJobs

  /** The screen's own state: which tab is open and whether the provider shows as online. */
  class ProviderView {
    var activeTab: Tab
    var isOnline: bool

    constructor ()
      ensures activeTab == Market && isOnline
    {
      activeTab := Market;
      isOnline := true;
    }

    method ToggleOnline()
      modifies this
      ensures isOnline == !old(isOnline) && activeTab == old(activeTab)
    {
      isOnline := !isOnline;
    }

    method SelectTab(t: Tab)
      modifies this
      ensures activeTab == t && isOnline == old(isOnline)
    {
      activeTab := t;
    }

    /** The cards shown under the open tab. */
    function Shown(availableJobs: seq<Job>, myJobs: seq<Job>): (r: seq<Job>)
      reads this
      ensures activeTab == Market ==> r == availableJobs
      ensures activeTab == MyJobs ==> r == myJobs
    {
      if activeTab == Market then availableJobs else myJobs
    }
  }
}
