/**
 * The sign-in form (components/Auth.tsx). Signing in looks the e-mail up among
 * the mock users and falls back to a demo user; registering builds a new
 * unverified user. The password is collected but never consulted. The
 * simulated one-second delay is modelled as two steps, begin and complete.
 */
module Auth {
  import opened Wrappers
  import opened Types
  import Lists
  import Constants

  datatype FormView = LoginView | RegisterView

  /** The first user with this e-mail (`MOCK_USERS.find(u => u.email === email)`). */
  function FindByEmail(users: seq<User>, email: string): Option<User>
  {
    Lists.Find(users, (u: User) => u.email == email)
  }

  /** The user a sign-in with an unknown e-mail gets. */
  function DefaultUser(email: string): User
  {
    User("temp", "Demo User", email, Buyer, true, None, None)
  }

  /**
   * The login branch: the first user with the e-mail, or else the demo user
   * carrying the entered e-mail.
   */
  function LoginUser(users: seq<User>, email: string): (u: User)
    ensures u.email == email
    ensures (exists i :: 0 <= i < |users| && users[i].email == email) ==>
              exists i :: 0 <= i < |users| && users[i] == u && forall j :: 0 <= j < i ==> users[j].email != email
    ensures (forall i :: 0 <= i < |users| ==> users[i].email != email) ==> u == DefaultUser(email)
  {
    match FindByEmail(users, email)
    case Some(found) => found
    case None => DefaultUser(email)
  }

  /** The register branch; `id` stands for the clock reading `Date.now()`. */
  function RegisterUser(id: string, name: string, email: string, role: UserRole): User
  {
    User(id, name, email, role, false, None, Some("New Company Ltd"))
  }

  /** The user `handleSubmit` hands to `onLogin`. */
  function SubmitUser(view: FormView, email: string, password: string, name: string,
                      role: UserRole, nowId: string): User
  {
    if view == LoginView then LoginUser(Constants.MockUsers, email)
    else RegisterUser(nowId, name, email, role)
  }

  /** A registration keeps what was entered, is unverified and gets the placeholder company. */
  lemma RegisterKeepsEnteredFields(email: string, password: string, name: string, role: UserRole, nowId: string)
    ensures var u := SubmitUser(RegisterView, email, password, name, role, nowId);
            u.name == name && u.email == email && u.role == role && u.id == nowId &&
            !u.verified && u.companyName == Some("New Company Ltd")
  {
  }

  /** The outcome of a submit never depends on the password. */
  lemma SubmitIgnoresPassword(view: FormView, email: string, p1: string, p2: string, name: string,
                              role: UserRole, nowId: string)
    ensures SubmitUser(view, email, p1, name, role, nowId) == SubmitUser(view, email, p2, name, role, nowId)
  {
  }

  /** Signing in with a fixture e-mail yields exactly that fixture user. */
  lemma KnownEmailSignsInThatUser(i: nat)
    requires i < |Constants.MockUsers|
    ensures LoginUser(Constants.MockUsers, Constants.MockUsers[i].email) == Constants.MockUsers[i]
  {
    Constants.MockEmailsUnique();
  }

  /** Signing in with any other e-mail yields the demo buyer. */
  lemma UnknownEmailSignsInDemoBuyer(email: string)
    requires forall i :: 0 <= i < |Constants.MockUsers| ==> Constants.MockUsers[i].email != email
    ensures var u := LoginUser(Constants.MockUsers, email);
            u.id == "temp" && u.name == "Demo User" && u.email == email && u.role == Buyer && u.verified
  {
  }

  /** `handleDemoLogin`: the first user holding `role`; nothing happens when there is none. */
  function DemoLogin(users: seq<User>, role: UserRole): (r: Option<User>)
    ensures r.Some? ==> exists i :: 0 <= i < |users| && users[i] == r.value && r.value.role == role &&
                          forall j :: 0 <= j < i ==> users[j].role != role
    ensures r.None? <==> forall i :: 0 <= i < |users| ==> users[i].role != role
  {
    Lists.Find(users, (u: User) => u.role == role)
  }

  /** Every demo button signs in the fixture user of that role. */
  lemma DemoLoginFindsFixture(role: UserRole)
    ensures DemoLogin(Constants.MockUsers, role).Some?
  {
    Constants.OneMockUserPerRole();
    assert |Constants.HoldersOf(role)| == 1;
    var k :| k in Constants.HoldersOf(role);
  }

  /** The roles the register form offers, in order; the first is the default. */
  const RegisterRoles: seq<UserRole> := [Buyer, Seller, Intermediary]

  /** Registration can never create an administrator. */
  lemma RegisterNeverOffersAdmin()
    ensures Admin !in RegisterRoles && RegisterRoles[0] == Buyer
  {
  }

  /** The field values a submit's delayed callback closes over. */
  datatype Submission = Submission(view: FormView, email: string, password: string, name: string, role: UserRole)

  /** The form's state. */
  class AuthForm {
    var view: FormView
    var email: string
    var password: string
    var selectedRole: UserRole
    var name: string
    var loading: bool

    constructor ()
      ensures view == LoginView && email == "" && password == "" && name == ""
      ensures selectedRole == Buyer && !loading
    {
      view, email, password, name := LoginView, "", "", "";
      selectedRole, loading := Buyer, false;
    }

    /** The submit button can be pressed. */
    predicate SubmitEnabled()
      reads this
    {
      !loading
    }

    /** The link under the form switches between signing in and registering. */
    method ToggleView()
      modifies this`view
      ensures view == if old(view) == LoginView then RegisterView else LoginView
    {
      view := if view == LoginView then RegisterView else LoginView;
    }

    method SetEmail(value: string)
      modifies this`email
      ensures email == value
    {
      email := value;
    }

    method SetPassword(value: string)
      modifies this`password
      ensures password == value
    {
      password := value;
    }

    method SetName(value: string)
      modifies this`name
      ensures name == value
    {
      name := value;
    }

    /** Choosing one of the register form's role options. */
    method SelectRole(option: nat)
      requires option < |RegisterRoles|
      modifies this`selectedRole
      ensures selectedRole == RegisterRoles[option] && selectedRole != Admin
    {
      selectedRole := RegisterRoles[option];
    }

    /**
     * The start of `handleSubmit`: `loading` is set and the scheduled callback
     * captures the field values of this render. The submit button is disabled
     * while loading (`disabled={loading}` in components/Auth.tsx), so a submit
     * only starts from a form that is not loading.
     */
    method BeginSubmit() returns (s: Submission)
      requires SubmitEnabled()
      modifies this`loading
      ensures loading
      ensures s == Submission(view, email, password, name, selectedRole)
    {
      loading := true;
      s := Submission(view, email, password, name, selectedRole);
    }

    /**
     * The delayed callback of `handleSubmit`: the user built from the values
     * captured at submit, whatever was typed or toggled since, and loading
     * cleared.
     */
    method CompleteSubmit(s: Submission, nowId: string) returns (user: User)
      modifies this`loading
      ensures !loading
      ensures user == SubmitUser(s.view, s.email, s.password, s.name, s.role, nowId)
    {
      user := SubmitUser(s.view, s.email, s.password, s.name, s.role, nowId);
      loading := false;
    }
  }

  /**
   * Editing the form while the submit is pending does not change who signs
   * in: the buyer's e-mail is submitted, then the seller's is typed and the
   * view toggled before the callback runs, and the buyer is signed in.
   */
  method EditDuringDelay() returns (user: User, loadingAfter: bool)
    ensures user == Constants.MockUsers[0] && !loadingAfter
  {
    var form := new AuthForm();
    form.SetEmail(Constants.MockUsers[0].email);
    form.SetPassword("secret");
    var s := form.BeginSubmit();
    form.SetEmail(Constants.MockUsers[1].email);
    form.ToggleView();
    KnownEmailSignsInThatUser(0);
    user := form.CompleteSubmit(s, "0");
    loadingAfter := form.loading;
  }
}
