/**
 * The sign-in page (pages/AuthPage.tsx): choosing a role, the submit handler
 * and where it navigates, the demo credentials and the back button.
 */
module AuthPage {
  import opened Wrappers
  import opened Domain
  import Store

  datatype Mode = Login | Signup

  /** Where a successful sign-in goes: chosen by the role picked on the page, not the account's role. */
  function LoginTarget(selected: UserRole): (r: string)
    ensures selected == Provider <==> r == "/provider-dashboard"
    ensures selected == Client <==> r == "/client-dashboard"
    ensures selected == Admin <==> r == "/admin-dashboard"
  {
    match selected
    case Provider => "/provider-dashboard"
    case Client => "/client-dashboard"
    case Admin => "/admin-dashboard"
  }

  /** Where a successful sign-up goes: providers to their dashboard, everyone else to the client one. */
  function SignupTarget(selected: UserRole): (r: string)
    ensures r == "/provider-dashboard" <==> selected == Provider
    ensures r in {"/provider-dashboard", "/client-dashboard"}
  {
    if selected == Provider then "/provider-dashboard" else "/client-dashboard"
  }

  const NoRoleError := "Please select a role first."
  const LoginFailed := "Login failed"
  const SignupFailed := "Registration failed. Email might be taken."

  /** The page's visible result of one submit: the error line and the navigation, if any. */
  datatype Outcome = Outcome(error: string, navigate: Option<string>)

  /** The error shown after a failed sign-in: the store's message, or the default when it has none. */
  function LoginError(r: Store.AuthResult): (e: string)
    ensures e != ""
    ensures r.message.Some? && r.message.value != "" ==> e == r.message.value
    ensures !(r.message.Some? && r.message.value != "") ==> e == LoginFailed
  {
    if r.message.Some? && r.message.value != "" then r.message.value else LoginFailed
  }

  /** The result of a sign-in with a role selected. */
  function LoginOutcome(selected: UserRole, r: Store.AuthResult): (o: Outcome)
    ensures o.navigate.Some? <==> r.success
    ensures o.navigate.Some? ==> o.error == "" && o.navigate.value == LoginTarget(selected)
    ensures !r.success ==> o.error == LoginError(r)
  {
    if r.success then Outcome("", Some(LoginTarget(selected))) else Outcome(LoginError(r), None)
  }

  /** The result of a sign-up with a role selected. */
  function SignupOutcome(selected: UserRole, ok: bool): (o: Outcome)
    ensures o.navigate.Some? <==> ok
    ensures ok ==> o == Outcome("", Some(SignupTarget(selected)))
    ensures !ok ==> o == Outcome(SignupFailed, None)
  {
    if ok then Outcome("", Some(SignupTarget(selected))) else Outcome(SignupFailed, None)
  }

  /** The e-mail the demo helper fills in for a role. */
  function DemoEmail(r: UserRole): (e: string)
    ensures |e| > 12 && e[|e| - 12..] == "@example.com"
  {
    match r
    case Client => "alice@example.com"
    case Provider => "bob@example.com"
    case Admin => "admin@example.com"
  }

  /** Each role has its own demo account. */
  lemma DemoEmailsDistinct(r1: UserRole, r2: UserRole)
    ensures r1 != r2 ==> DemoEmail(r1) != DemoEmail(r2)
  {
  }

  /** Which store call a submit made. */
  datatype Call = NoCall | LoginCall(email: string, password: string) | SignupCall(name: string, email: string, password: string, role: UserRole)

  class AuthForm {
    var selectedRole: Option<UserRole>
    var authMode: Mode
    var name: string
    var email: string
    var password: string
    var error: string
    var isLoading: bool

    constructor ()
      ensures selectedRole == None && authMode == Login
      ensures name == "" && email == "" && password == "" && error == "" && !isLoading
    {
      selectedRole := None;
      authMode := Login;
      name, email, password := "", "", "";
      error := "";
      isLoading := false;
    }

    method SelectRole(r: UserRole)
      modifies this`selectedRole
      ensures selectedRole == Some(r)
    {
      selectedRole := Some(r);
    }

    /** The Log In / Sign Up tabs switch mode and clear the error. */
    method SetMode(m: Mode)
      modifies this`authMode, this`error
      ensures authMode == m && error == ""
    {
      authMode := m;
      error := "";
    }

    method SetFields(n: string, e: string, p: string)
      modifies this`name, this`email, this`password
      ensures name == n && email == e && password == p
    {
      name, email, password := n, e, p;
    }

    /**
     * `fillDemoCreds` as rendered with role `seen`: that role's demo e-mail and
     * the password 'password'; the name is kept; no role, no change.
     */
    method FillDemoCredsAs(seen: Option<UserRole>)
      modifies this`email, this`password
      ensures seen.Some? ==> email == DemoEmail(seen.value) && password == "password"
      ensures seen.None? ==> email == old(email) && password == old(password)
    {
      if seen.Some? {
        email := DemoEmail(seen.value);
        password := "password";
      }
    }

    /** The demo link on the sign-in form. */
    method FillDemoCreds()
      modifies this`email, this`password
      ensures selectedRole.Some? ==> email == DemoEmail(selectedRole.value) && password == "password"
      ensures selectedRole.None? ==> email == old(email) && password == old(password)
    {
      FillDemoCredsAs(selectedRole);
    }

    /**
     * The admin link on the landing screen: it selects ADMIN, but the demo
     * helper it then calls was rendered while no role was selected, so it
     * fills nothing.
     */
    method AdminPortal()
      requires selectedRole == None
      modifies this`selectedRole, this`email, this`password
      ensures selectedRole == Some(Admin)
      ensures email == old(email) && password == old(password)
    {
      var seen := selectedRole;
      selectedRole := Some(Admin);
      FillDemoCredsAs(seen);
    }

    /** The back button: no role, no error, empty fields. */
    method Back()
      modifies this`selectedRole, this`error, this`name, this`email, this`password
      ensures selectedRole == None && error == "" && name == "" && email == "" && password == ""
    {
      selectedRole := None;
      error := "";
      name, email, password := "", "", "";
    }

    /**
     * `handleSubmit`: clears the error; without a role reports it and calls
     * nothing; otherwise signs in or signs up through the store and either
     * navigates or shows the failure. Loading is off at the end of every path.
     */
    method HandleSubmit(store: Store.Store, signIn: Store.SignInReply, signUp: Store.SignUpReply)
      returns (call: Call, navigate: Option<string>)
      modifies this`error, this`isLoading, store`user
      ensures !isLoading
      ensures selectedRole.None? ==> call == NoCall && navigate == None && error == NoRoleError && store.user == old(store.user)
      ensures selectedRole.Some? && authMode == Login ==>
        && call == LoginCall(email, password)
        && Outcome(error, navigate) == LoginOutcome(selectedRole.value, Store.AuthenticateResult(signIn))
        && store.user == (if signIn.SignedIn? then Some(Store.MapUser(signIn.account, signIn.profile)) else old(store.user))
      ensures selectedRole.Some? && authMode == Signup ==>
        && call == SignupCall(name, email, password, selectedRole.value)
        && Outcome(error, navigate) == SignupOutcome(selectedRole.value, Store.RegisterResult(signUp))
        && store.user == old(store.user)
    {
      error := "";
      isLoading := true;
      navigate := None;
      if selectedRole.None? {
        error := NoRoleError;
        isLoading := false;
        call := NoCall;
        return;
      }
      var role := selectedRole.value;
      if authMode == Login {
        call := LoginCall(email, password);
        var result := store.Authenticate(signIn);
        if result.success {
          navigate := Some(LoginTarget(role));
        } else {
          error := LoginError(result);
        }
      } else {
        call := SignupCall(name, email, password, role);
        var ok := store.Register(signUp);
        if ok {
          navigate := Some(SignupTarget(role));
        } else {
          error := SignupFailed;
        }
      }
      isLoading := false;
    }
  }
}
