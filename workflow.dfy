/**
 * How the pieces fit together, and where they do not: the status spellings
 * the screens and services write and read, the payment return, the store's
 * empty status update, and where sign-in sends each role.
 */
module Workflow {
  import opened Wrappers
  import opened Domain
  import opened JobsTable
  import JobCard
  import ProviderDashboard
  import JobsService
  import Store
  import ClientDashboard
  import Checkout
  import Routes
  import AuthPage

  /**
   * A job booked through the wizard or the store is stored as 'OPEN': no card
   * colours it or offers any action on it, and the jobs service does not list
   * it as pending.
   */
  lemma OpenJobsAreStranded(role: UserRole, userId: string, serviceType: string, price: real,
                            a: Address, c: ServiceCategory, date: string, jobData: Row, id: string, stamp: nat)
    ensures var booked := ClientDashboard.BookingRow(userId, serviceType, price, a, c, date);
      && JobCard.Buttons(role, "OPEN") == [] && JobCard.StatusColor("OPEN") == None
      && !RecordMatches(Record(id, stamp, booked), "status", JobsService.PendingStatus)
    ensures !RecordMatches(Record(id, stamp, Store.StoreJobRow(userId, jobData)), "status", JobsService.PendingStatus)
  {
    var booked := ClientDashboard.BookingRow(userId, serviceType, price, a, c, date);
    JobsService.PendingIsLowerCaseOnly(Record(id, stamp, booked));
    JobsService.PendingIsLowerCaseOnly(Record(id, stamp, Store.StoreJobRow(userId, jobData)));
  }

  /**
   * A job accepted through the jobs service says 'accepted' in lower case:
   * the card then shows no colour and no 'start' button, so the provider
   * cannot move it on.
   */
  lemma AcceptedJobsStall(rows: map<string, Row>, jobId: string, providerId: string, role: UserRole)
    requires jobId in rows
    ensures var after := Patched(rows, "id", Str(jobId), JobsService.AcceptPatch(providerId));
      && Column(after[jobId], "status") == Str("accepted")
      && JobCard.Buttons(role, "accepted") == []
      && JobCard.StatusColor("accepted") == None
  {
    JobsService.AcceptTouchesOneRow(rows, jobId, providerId);
  }

  /**
   * The checkout's success address carries `payment_success=true`, but the
   * client page waits for `payment_status=success`: returning from a payment
   * never marks the job paid. A query in the shape the page expects would.
   */
  lemma PaymentReturnNeverMatches(jobId: string)
    ensures ClientDashboard.Lookup(Checkout.ReturnQuery(jobId), "payment_status") == None
    ensures ClientDashboard.PaidJob(Checkout.ReturnQuery(jobId)) == None
    ensures jobId != "" ==> ClientDashboard.PaidJob([("job_id", jobId), ("payment_status", "success")]) == Some(jobId)
  {
    var q := Checkout.ReturnQuery(jobId);
    assert q[0].0 != "payment_status" && q[1].0 != "payment_status";
    var good := [("job_id", jobId), ("payment_status", "success")];
    assert ClientDashboard.Lookup(good, "job_id") == Some(jobId);
    assert good[1..] == [("payment_status", "success")];
    assert ClientDashboard.Lookup(good, "payment_status") == Some("success");
  }

  /**
   * A provider's button press: the card's action goes through the dashboard
   * handler to the store, which asks for the next workflow status and then
   * does nothing, so the jobs table is unchanged.
   */
  method ProviderPress(store: Store.Store, table: Table, user: Option<User>, jobId: string, status: string)
    returns (requests: seq<ProviderDashboard.StatusRequest>)
    requires table.Valid()
    ensures table.rows == old(table.rows) && table.order == old(table.order)
    ensures |requests| <= 1
    ensures user.Some? && ParseStatus(status).Some? && ProviderDashboard.Successor(ParseStatus(status).value).Some? ==>
      requests == [ProviderDashboard.StatusRequest(jobId, ProviderDashboard.Successor(ParseStatus(status).value).value,
                    if status == "PENDING" then Some(user.value.id) else None)]
  {
    requests := [];
    var buttons := JobCard.Buttons(Provider, status);
    JobCard.AtMostOneButton(Provider, status);
    if buttons != [] {
      var pressed := JobCard.Press(buttons[0], true);
      requests := ProviderDashboard.HandleJobAction(user, jobId, pressed.value);
      ProviderDashboard.HandlerShape(user, jobId, pressed.value);
      if user.Some? {
        ProviderDashboard.CardThenHandlerAdvances(user.value, jobId, status);
      }
      if requests != [] {
        store.UpdateJobStatus(table, requests[0]);
      }
    }
  }

  /** The store's job lists are empty, so the provider's badge is 0 and both tabs are empty. */
  lemma ProviderScreenEmpty(store: Store.Store, view: ProviderDashboard.ProviderView)
    ensures ProviderDashboard.ScheduleBadge(store.MyJobs()) == 0
    ensures view.Shown(store.AvailableJobs(), store.MyJobs()) == []
  {
  }

  /** Signing in as an administrator navigates to a path the router sends back to "/". */
  lemma AdminLoginBouncesBack(loading: bool, user: Option<User>)
    ensures Routes.Route(AuthPage.LoginTarget(Admin), loading, user) == Routes.RedirectTo("/")
  {
  }

  /**
   * Navigation follows the role picked on the page, the guard the account's
   * role: an account whose role differs from the picked one lands back on "/".
   */
  lemma PickedRoleVersusAccountRole(picked: UserRole, account: User)
    requires account.role != RoleName(picked)
    ensures Routes.Route(AuthPage.LoginTarget(picked), false, Some(account)) == Routes.RedirectTo("/")
  {
  }

  /**
   * Signing up does not sign the store in: from a signed-out store, the page a
   * new account is sent to redirects back to "/".
   */
  lemma SignupLandsSignedOut(picked: UserRole)
    ensures Routes.Route(AuthPage.SignupTarget(picked), false, None) == Routes.RedirectTo("/")
  {
  }
}
