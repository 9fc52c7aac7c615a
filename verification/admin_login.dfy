/** `AdminLogin`: the administrator login form, its two-factor modal, and the
    admin check that either completes the login or logs the user out again.
    The results of the HTTP calls are parameters of the handlers. */
module AdminAuth {
  import opened Js

  /** The states `loginRes` takes in this component: it is only ever set to
      `EMPTY_REQUEST` or `LOADING_REQUEST`. */
  datatype RequestState = EmptyRequest | LoadingRequest

  datatype Form = Form(usernameOrEmail: string, password: string)

  /** The result of `HttpService.client.login`. */
  datatype LoginResult = LoginSucceeded(response: string) | LoginFailed(name: string)

  /** The result of `HttpService.client.getSite`; `admin` is
      `my_user?.local_user_view.local_user.admin`, `None` when there is no `my_user`. */
  datatype SiteResult = SiteSucceeded(admin: Option<bool>) | SiteFailed

  datatype Effect =
    | LoginRequested(usernameOrEmail: string, password: string, totp: Option<string>)
    | SessionStarted(response: string)  // `UserService.login({ res, showToast: false })`
    | SiteRequested
    | MyUserInfoSet
    | Toast(key: string, danger: bool)
    | RedirectedTo(path: string)        // `history.replace`
    | LoggedOut                         // `UserService.logout()`

  datatype AdminState = AdminState(
    loginRes: RequestState,
    form: Form,
    show2faModal: bool,
    log: seq<Effect>)

  const MissingTotp: string := "missing_totp_token"
  const AdminPath: string := "/admin"

  function Init(): AdminState {
    AdminState(EmptyRequest, Form("", ""), false, [])
  }

  predicate IsAdmin(site: SiteResult) {
    site.SiteSucceeded? && site.admin == Some(true)
  }

  /** `handleLoginSuccess`: sign in with the response, fetch the site, and keep the
      session only if the site request succeeded and says the user is an admin. */
  function LoginSuccess(s: AdminState, response: string, site: SiteResult): (r: AdminState)
    ensures r.loginRes == s.loginRes && r.form == s.form && r.show2faModal == s.show2faModal
    ensures |r.log| > |s.log| + 1 && r.log[..|s.log|] == s.log
    ensures r.log[|s.log|] == SessionStarted(response) && r.log[|s.log| + 1] == SiteRequested
    ensures RedirectedTo(AdminPath) in r.log[|s.log|..] <==> IsAdmin(site)
    ensures LoggedOut in r.log[|s.log|..] <==> !IsAdmin(site)
  {
    var fetched := [SessionStarted(response), SiteRequested];
    var added :=
      if site.SiteSucceeded? && site.admin == Some(true) then
        fetched + [MyUserInfoSet, Toast("logged_in_as_admin", false), RedirectedTo(AdminPath)]
      else
        fetched + [Toast("not_an_administrator", true), LoggedOut];
    assert (s.log + added)[|s.log|..] == added;
    s.(log := s.log + added)
  }

  /** Both fields are non-empty, which `handleLoginSubmit` demands before sending. */
  predicate CanSubmit(form: Form) {
    form.usernameOrEmail != "" && form.password != ""
  }

  /** `handleLoginSubmit`, with `login` the result of the login request and `site`
      that of the site request made by `handleLoginSuccess`. */
  function Submit(s: AdminState, login: LoginResult, site: SiteResult): (r: AdminState)
    ensures !CanSubmit(s.form) ==> r == s
    ensures CanSubmit(s.form) ==>
      |r.log| > |s.log| && r.log[..|s.log|] == s.log
      && r.log[|s.log|] == LoginRequested(s.form.usernameOrEmail, s.form.password, None)
    ensures CanSubmit(s.form) && login.LoginSucceeded? ==>
      r == LoginSuccess(s.(loginRes := LoadingRequest,
                           log := s.log + [LoginRequested(s.form.usernameOrEmail, s.form.password, None)]),
                        login.response, site)
    ensures CanSubmit(s.form) && login.LoginFailed? ==>
      r.loginRes == EmptyRequest && r.form == s.form
      && r.show2faModal == (s.show2faModal || login.name == MissingTotp)
      && r.log == s.log + [LoginRequested(s.form.usernameOrEmail, s.form.password, None)]
                  + (if login.name == MissingTotp then [] else [Toast(login.name, true)])
      && (Toast(login.name, true) in r.log[|s.log|..] <==> login.name != MissingTotp)
  {
    if !CanSubmit(s.form) then s
    else
      var sent := s.(loginRes := LoadingRequest,
                     log := s.log + [LoginRequested(s.form.usernameOrEmail, s.form.password, None)]);
      match login
      case LoginSucceeded(response) => LoginSuccess(sent, response, site)
      case LoginFailed(name) =>
        var request := LoginRequested(s.form.usernameOrEmail, s.form.password, None);
        var added := if name == MissingTotp then [request] else [request, Toast(name, true)];
        assert (s.log + added)[|s.log|..] == added;
        sent.(loginRes := EmptyRequest, show2faModal := s.show2faModal || name == MissingTotp,
              log := s.log + added)
  }

  /** `handleSubmitTotp`: resend the form's credentials with the code; returns
      whether the login succeeded. */
  function SubmitTotp(s: AdminState, totp: string, login: LoginResult, site: SiteResult): (r: (AdminState, bool))
    ensures r.1 <==> login.LoginSucceeded?
    ensures r.0.show2faModal == (if r.1 then false else s.show2faModal)
    ensures r.0.loginRes == s.loginRes && r.0.form == s.form
    ensures |r.0.log| > |s.log| && r.0.log[..|s.log|] == s.log
    ensures r.0.log[|s.log|] == LoginRequested(s.form.usernameOrEmail, s.form.password, Some(totp))
    ensures !r.1 ==> r.0.log == s.log + [r.0.log[|s.log|], Toast("incorrect_totp_code", true)]
    ensures r.1 ==>
      r.0 == LoginSuccess(s.(show2faModal := false,
                             log := s.log + [LoginRequested(s.form.usernameOrEmail, s.form.password, Some(totp))]),
                          login.response, site)
  {
    var sent := s.(log := s.log + [LoginRequested(s.form.usernameOrEmail, s.form.password, Some(totp))]);
    match login
    case LoginSucceeded(response) => (LoginSuccess(sent.(show2faModal := false), response, site), true)
    case LoginFailed(_) => (sent.(log := sent.log + [Toast("incorrect_totp_code", true)]), false)
  }

  /** `handleUsernameChange`: the input is stored trimmed. */
  function UsernameChange(s: AdminState, input: string): (r: AdminState)
    ensures r.form.usernameOrEmail == Trim(input) && r.form.password == s.form.password
    ensures r.loginRes == s.loginRes && r.show2faModal == s.show2faModal && r.log == s.log
  {
    s.(form := s.form.(usernameOrEmail := Trim(input)))
  }

  /** `handlePasswordChange`: the input is stored verbatim. */
  function PasswordChange(s: AdminState, input: string): (r: AdminState)
    ensures r.form.password == input && r.form.usernameOrEmail == s.form.usernameOrEmail
    ensures r.loginRes == s.loginRes && r.show2faModal == s.show2faModal && r.log == s.log
  {
    s.(form := s.form.(password := input))
  }

  /** `handleClose2faModal`. */
  function Close2faModal(s: AdminState): (r: AdminState)
    ensures !r.show2faModal && r == s.(show2faModal := false)
  {
    s.(show2faModal := false)
  }

  /** The submit button is disabled, showing a spinner, while the login request is loading. */
  predicate SubmitDisabled(s: AdminState) {
    s.loginRes == LoadingRequest
  }

  /** A user name typed as whitespace only is stored empty, so submitting sends
      nothing and changes nothing. */
  lemma BlankUsernameBlocksSubmit(s: AdminState, input: string, login: LoginResult, site: SiteResult)
    requires AllWhitespace(input)
    ensures var t := UsernameChange(s, input);
      Submit(t, login, site) == t
  {
    TrimEmptyIffAllWhitespace(input);
  }

  /** After a submit that sends a request, the button stays disabled exactly when
      the login succeeded: a failure returns `loginRes` to empty, a success leaves
      it loading while the admin check redirects or logs out. */
  lemma SubmitLeavesButton(s: AdminState, login: LoginResult, site: SiteResult)
    requires CanSubmit(s.form)
    ensures SubmitDisabled(Submit(s, login, site)) <==> login.LoginSucceeded?
  {
  }

  /** The two-factor path: a submit answered with `missing_totp_token` opens the
      modal; a correct code then closes it and admits an admin, whose session is
      kept and who is sent to `/admin`. */
  lemma TwoFactorPath(s: AdminState, totp: string, response: string)
    requires CanSubmit(s.form)
    ensures var t := Submit(s, LoginFailed(MissingTotp), SiteFailed);
      t.show2faModal && t.loginRes == EmptyRequest
      && var (u, ok) := SubmitTotp(t, totp, LoginSucceeded(response), SiteSucceeded(Some(true)));
         ok && !u.show2faModal && RedirectedTo(AdminPath) in u.log[|t.log|..] && LoggedOut !in u.log[|t.log|..]
  {
    var t := Submit(s, LoginFailed(MissingTotp), SiteFailed);
    var (u, ok) := SubmitTotp(t, totp, LoginSucceeded(response), SiteSucceeded(Some(true)));
    var sent := t.(log := t.log + [LoginRequested(t.form.usernameOrEmail, t.form.password, Some(totp))]);
    assert u.log[|t.log|..] == u.log[|sent.log| - 1..];
    assert RedirectedTo(AdminPath) in u.log[|sent.log|..];
    assert u.log[|sent.log|..] == u.log[|t.log|..][1..];
  }

  /** A correct code does not admit a user the admin check rejects: after the
      two-factor login the session is logged out again and there is no
      redirect to `/admin`. */
  lemma TotpNonAdminLoggedOut(s: AdminState, totp: string, response: string, site: SiteResult)
    requires !IsAdmin(site)
    ensures var (u, ok) := SubmitTotp(s, totp, LoginSucceeded(response), site);
      ok && LoggedOut in u.log[|s.log|..] && RedirectedTo(AdminPath) !in u.log[|s.log|..]
  {
    var (u, ok) := SubmitTotp(s, totp, LoginSucceeded(response), site);
    var n := |s.log| + 1;
    assert u.log[|s.log|..] == [u.log[|s.log|]] + u.log[n..];
    assert u.log[|s.log|] == LoginRequested(s.form.usernameOrEmail, s.form.password, Some(totp));
  }

  class AdminLogin {
    var loginRes: RequestState
    var form: Form
    var show2faModal: bool
    ghost var log: seq<Effect>

    ghost function State(): AdminState
      reads this
    {
      AdminState(loginRes, form, show2faModal, log)
    }

    constructor()
      ensures State() == Init()
    {
      loginRes := EmptyRequest;
      form := Form("", "");
      show2faModal := false;
      log := [];
    }

    method HandleLoginSuccess(response: string, site: SiteResult)
      modifies this
      ensures State() == LoginSuccess(old(State()), response, site)
    {
      log := log + [SessionStarted(response), SiteRequested];
      if site.SiteSucceeded? && site.admin == Some(true) {
        log := log + [MyUserInfoSet, Toast("logged_in_as_admin", false), RedirectedTo(AdminPath)];
      } else {
        log := log + [Toast("not_an_administrator", true), LoggedOut];
      }
    }

    method HandleLoginSubmit(login: LoginResult, site: SiteResult)
      modifies this
      ensures State() == Submit(old(State()), login, site)
    {
      var usernameOrEmail, password := form.usernameOrEmail, form.password;
      if usernameOrEmail != "" && password != "" {
        loginRes := LoadingRequest;
        log := log + [LoginRequested(usernameOrEmail, password, None)];
        if login.LoginSucceeded? {
          HandleLoginSuccess(login.response, site);
        } else {
          if login.name == MissingTotp {
            show2faModal := true;
          } else {
            log := log + [Toast(login.name, true)];
          }
          loginRes := EmptyRequest;
        }
      }
    }

    method HandleSubmitTotp(totp: string, login: LoginResult, site: SiteResult) returns (successful: bool)
      modifies this
      ensures (State(), successful) == SubmitTotp(old(State()), totp, login, site)
    {
      log := log + [LoginRequested(form.usernameOrEmail, form.password, Some(totp))];
      successful := login.LoginSucceeded?;
      if successful {
        show2faModal := false;
        HandleLoginSuccess(login.response, site);
      } else {
        log := log + [Toast("incorrect_totp_code", true)];
      }
    }

    method HandleUsernameChange(input: string)
      modifies this
      ensures State() == UsernameChange(old(State()), input)
    {
      var trimmed := Trim(input);
      form := Form(trimmed, form.password);
    }

    method HandlePasswordChange(input: string)
      modifies this
      ensures State() == PasswordChange(old(State()), input)
    {
      form := form.(password := input);
    }

    method HandleClose2faModal()
      modifies this
      ensures State() == Close2faModal(old(State()))
    {
      show2faModal := false;
    }

    function SubmitButtonDisabled(): (b: bool)
      reads this
      ensures b <==> SubmitDisabled(State())
    {
      loginRes == LoadingRequest
    }
  }
}
