/**
 * The session store (context/StoreContext.tsx): mapping an authenticated
 * account to the app's user, the results of sign-in and sign-up, logout,
 * the job row it inserts, and the status update it exposes (which does nothing).
 */
module Store {
  import opened Wrappers
  import opened Domain
  import opened JobsTable
  import ProviderDashboard

  /** An account as the identity provider returns it, with its sign-up metadata. */
  datatype AuthUser = AuthUser(id: string, email: Option<string>, metaFullName: Option<string>, metaUserType: Option<string>)

  /** A row of the profiles table, when one was found. */
  datatype Profile = Profile(fullName: Option<string>, userType: Option<string>)

  /** JavaScript truthiness of optional text: absent and empty are both false. */
  predicate Truthy(t: Option<string>)
  {
    t.Some? && t.value != ""
  }

  /** `a || b` on optional text. */
  function OrElse(a: Option<string>, b: string): (r: string)
    ensures Truthy(a) ==> r == a.value
    ensures !Truthy(a) ==> r == b
  {
    if Truthy(a) then a.value else b
  }

  function ProfileName(p: Option<Profile>): Option<string>
  {
    if p.Some? then p.value.fullName else None
  }

  function ProfileType(p: Option<Profile>): Option<string>
  {
    if p.Some? then p.value.userType else None
  }

  /**
   * The user built from an account and its profile: the profile wins, then the
   * metadata, then the defaults 'User' and 'CLIENT'; email defaults to ''.
   */
  function MapUser(u: AuthUser, profile: Option<Profile>): (r: User)
    ensures r.id == u.id && r.name != "" && r.role != ""
    ensures Truthy(ProfileName(profile)) ==> r.name == ProfileName(profile).value
    ensures !Truthy(ProfileName(profile)) && Truthy(u.metaFullName) ==> r.name == u.metaFullName.value
    ensures !Truthy(ProfileName(profile)) && !Truthy(u.metaFullName) ==> r.name == "User"
    ensures Truthy(ProfileType(profile)) ==> r.role == ProfileType(profile).value
    ensures !Truthy(ProfileType(profile)) && Truthy(u.metaUserType) ==> r.role == u.metaUserType.value
    ensures !Truthy(ProfileType(profile)) && !Truthy(u.metaUserType) ==> r.role == "CLIENT"
    ensures r.email == "" <==> !Truthy(u.email)
    ensures Truthy(u.email) ==> r.email == u.email.value
  {
    User(u.id,
         OrElse(ProfileName(profile), OrElse(u.metaFullName, "User")),
         OrElse(u.email, ""),
         OrElse(ProfileType(profile), OrElse(u.metaUserType, "CLIENT")))
  }

  /** What the identity provider answers to a password sign-in (a thrown error carries its message too). */
  datatype SignInReply =
    | SignInError(message: string)
    | SignInThrew(thrown: Option<string>)
    | SignInNoUser
    | SignedIn(account: AuthUser, profile: Option<Profile>)

  datatype AuthResult = AuthResult(success: bool, message: Option<string>)

  /** `authenticate`'s answer: success only with an account, otherwise the reason. */
  function AuthenticateResult(reply: SignInReply): (r: AuthResult)
    ensures r.success <==> reply.SignedIn?
    ensures r.success ==> r.message == None
    ensures reply.SignInError? ==> r.message == Some(reply.message)
    ensures reply.SignInNoUser? ==> r.message == Some("No user data returned")
    ensures reply.SignInThrew? ==> r.message == reply.thrown
  {
    match reply
    case SignInError(m) => AuthResult(false, Some(m))
    case SignInThrew(m) => AuthResult(false, m)
    case SignInNoUser => AuthResult(false, Some("No user data returned"))
    case SignedIn(_, _) => AuthResult(true, None)
  }

  /** What sign-up answers, and whether the profile row was saved afterwards. */
  datatype SignUpReply = SignUpError(message: string) | SignUpNoUser | SignedUp(account: AuthUser, profileSaved: bool)

  /** `register`: true whenever an account came back, even if saving its profile failed. */
  function RegisterResult(reply: SignUpReply): (r: bool)
    ensures r <==> reply.SignedUp?
    ensures reply.SignedUp? && !reply.profileSaved ==> r
  {
    reply.SignedUp?
  }

  /**
   * The row the store's `createJob` inserts: the user's id first, then every
   * field of `jobData` (which may replace it), then the status forced to 'OPEN'.
   */
  function StoreJobRow(userId: string, jobData: Row): (r: Row)
    ensures Column(r, "status") == Str("OPEN")
    ensures Column(r, "client_id") == (if "client_id" in jobData then jobData["client_id"] else Str(userId))
    ensures forall c :: c != "status" && c != "client_id" ==> Column(r, c) == Column(jobData, c)
    ensures r.Keys == jobData.Keys + {"client_id", "status"}
  {
    map["client_id" := Str(userId)] + jobData + map["status" := Str("OPEN")]
  }

  /** A `jobData` carrying its own client id puts the job under that id, not the signed-in user's. */
  lemma SpreadOverridesClient(userId: string, jobData: Row)
    requires "client_id" in jobData
    ensures StoreJobRow(userId, jobData)["client_id"] == jobData["client_id"]
  {
  }

  class Store {
    var user: Option<User>
    var loading: bool

    constructor ()
      ensures user == None && loading
    {
      user := None;
      loading := true;
    }

    /** Sign in; on success the mapped user becomes the current one. */
    method Authenticate(reply: SignInReply) returns (r: AuthResult)
      modifies this`user
      ensures r == AuthenticateResult(reply)
      ensures user == (if reply.SignedIn? then Some(MapUser(reply.account, reply.profile)) else old(user))
    {
      r := AuthenticateResult(reply);
      if reply.SignedIn? {
        user := Some(MapUser(reply.account, reply.profile));
      }
    }

    /** Sign up; the current user is not touched. */
    method Register(reply: SignUpReply) returns (ok: bool)
      ensures ok == RegisterResult(reply)
    {
      ok := RegisterResult(reply);
    }

    method Logout()
      modifies this`user
      ensures user == None
    {
      user := None;
    }

    /** The auth listener: a change that leaves no session clears the user. */
    method AuthStateChanged(hasSession: bool)
      modifies this`user
      ensures user == (if hasSession then old(user) else None)
    {
      if !hasSession {
        user := None;
      }
    }

    /**
     * `createJob`: nothing without a user; otherwise the row above is inserted,
     * when the store accepts it (a failure is only logged).
     */
    method CreateJob(table: Table, jobData: Row, freshId: string, storeAccepts: bool)
      requires table.Valid() && freshId !in table.rows
      modifies table
      ensures table.Valid()
      ensures table.Snapshot() ==
        if user.Some? && storeAccepts
        then old(table.Snapshot()) + [Record(freshId, |old(table.order)|, StoreJobRow(user.value.id, jobData))]
        else old(table.Snapshot())
    {
      if user.None? {
        return;
      }
      if storeAccepts {
        table.Insert(StoreJobRow(user.value.id, jobData), freshId);
      }
    }

    /** `updateJobStatus` is an empty placeholder: whatever it is asked, the jobs table stays as it was. */
    method UpdateJobStatus(table: Table, request: ProviderDashboard.StatusRequest)
      ensures table.order == old(table.order) && table.rows == old(table.rows)
    {
    }

    /** The placeholder lists the store hands to the dashboards are always empty. */
    function AvailableJobs(): (r: seq<Job>)
      ensures r == []
    {
      []
    }

    function MyJobs(): (r: seq<Job>)
      ensures r == []
    {
      []
    }
  }
}
