/**
 * The application shell: whether a user is signed in, who it is, and the
 * two routes that choose between rendering a form and redirecting.
 */
module Session {
  import opened Forms
  import Auth

  datatype Path = Root | CompanySetup

  /** What a route renders: one of the two forms, or a redirect (with history replacement) to another path. */
  datatype Element = AuthFormPage | CompanyFormPage | Redirect(to: Path)

  /**
   * The route table: "/" shows the sign-in form to a signed-out visitor and
   * sends a signed-in one to "/company-setup"; "/company-setup" shows the
   * wizard to a signed-in user and sends a signed-out visitor to "/".
   */
  function Route(path: Path, isAuthenticated: bool): Element
  {
    match path
    case Root => if !isAuthenticated then AuthFormPage else Redirect(CompanySetup)
    case CompanySetup => if isAuthenticated then CompanyFormPage else Redirect(Root)
  }

  /** The page finally shown for `path`, following a redirect when the route gives one. */
  function Shown(path: Path, isAuthenticated: bool): Element
  {
    match Route(path, isAuthenticated)
    case Redirect(to) => Route(to, isAuthenticated)
    case page => page
  }

  /** Each route renders exactly when its own condition holds, and otherwise redirects to the other path. */
  lemma RouteDecision(path: Path, isAuthenticated: bool)
    ensures Route(Root, isAuthenticated) == AuthFormPage <==> !isAuthenticated
    ensures Route(CompanySetup, isAuthenticated) == CompanyFormPage <==> isAuthenticated
    ensures Route(path, isAuthenticated).Redirect? ==> Route(path, isAuthenticated).to != path
    ensures isAuthenticated ==> Route(Root, isAuthenticated) == Redirect(CompanySetup)
    ensures !isAuthenticated ==> Route(CompanySetup, isAuthenticated) == Redirect(Root)
  {
  }

  /**
   * From either path at most one redirect reaches a rendered form, and
   * the form shown is the wizard iff the user is signed in; the wizard is
   * never shown to a signed-out visitor.
   */
  lemma AtMostOneRedirect(path: Path, isAuthenticated: bool)
    ensures !Shown(path, isAuthenticated).Redirect?
    ensures Shown(path, isAuthenticated) == (if isAuthenticated then CompanyFormPage else AuthFormPage)
    ensures !isAuthenticated ==> Route(path, isAuthenticated) != CompanyFormPage
  {
  }

  class App {
    var isAuthenticated: bool
    var userData: Option<Auth.UserData>

    /** Signed in exactly when there is a user record: the wizard can always read the user's id. */
    ghost predicate Valid()
      reads this
    {
      isAuthenticated <==> userData.Some?
    }

    constructor ()
      ensures Valid()
      ensures !isAuthenticated && userData == None
    {
      isAuthenticated := false;
      userData := None;
    }

    /** A form reported a successful sign-in with this user record. */
    method HandleAuthSuccess(data: Auth.UserData)
      modifies this
      ensures Valid()
      ensures isAuthenticated && userData == Some(data)
    {
      isAuthenticated := true;
      userData := Some(data);
    }

    method HandleLogout()
      modifies this
      ensures Valid()
      ensures !isAuthenticated && userData == None
    {
      isAuthenticated := false;
      userData := None;
    }

    /** What the router renders at `path` in the current session. */
    method Render(path: Path) returns (e: Element)
      requires Valid()
      ensures e == Route(path, isAuthenticated)
      ensures e == CompanyFormPage ==> isAuthenticated && userData.Some?
    {
      e := Route(path, isAuthenticated);
    }
  }

  /**
   * The whole flow: a fresh session shows the sign-in form at "/"; after a
   * successful registration it lands on the wizard; after logout it is back
   * on the sign-in form.
   */
  method SignInFlow(id: string)
  {
    var app := new App();
    var form := new Auth.AuthForm();
    var page := app.Render(Root);
    assert page == AuthFormPage;
    form.ToggleMode();
    form.HandleInputChange(Auth.Email, Auth.Text("a@b.com"));
    form.HandleInputChange(Auth.Password, Auth.Text("abcdef"));
    form.HandleInputChange(Auth.ConfirmPassword, Auth.Text("abcdef"));
    form.HandleInputChange(Auth.FirstName, Auth.Text("A"));
    form.HandleInputChange(Auth.LastName, Auth.Text("B"));
    form.HandleInputChange(Auth.AgreeToTerms, Auth.Checked(true));
    assert form.formData == Auth.AuthData("a@b.com", "abcdef", "abcdef", "A", "B", "", true);
    Auth.RegistrationExampleValid();
    Auth.FormValidIff(form.formData, form.isLogin);
    var payload := form.HandleSubmit(id);
    assert payload.Some? && payload.value.isNewUser;
    app.HandleAuthSuccess(payload.value);
    page := app.Render(Root);
    assert page == Redirect(CompanySetup);
    AtMostOneRedirect(Root, app.isAuthenticated);
    app.HandleLogout();
    page := app.Render(CompanySetup);
    assert page == Redirect(Root);
  }
}
