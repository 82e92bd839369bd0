/** LoginFormEx, the credential dialog of the ticket-based login: the first click on Login runs
    the full first attempt (GET the login page, then POST), every later click only re-POSTs with
    the request token the previous attempt left behind. Widgets are reduced to the text of the two
    text boxes, the Enabled flag of the Login button, the dialog result and whether the form was
    closed. */
module LoginDialog {
  import opened Outcomes
  import opened Transport
  import opened BoxLogin

  /** System.Windows.Forms.DialogResult, restricted to the values the dialog uses. */
  datatype DialogResult = NoResult | OK | Cancel

  /** A form holding `token` and `authenticated` after attempt `a` reflects it: its requests
      were sent, its token is held, an exception escaped or its return value became
      `authenticated`. */
  ghost predicate Applied(a: Attempt, token: string, authenticated: bool, wasAuthenticated: bool,
                          escaped: Option<Fault>, sent: seq<Request>)
  {
    && sent == a.sent
    && token == a.requestToken
    && escaped == (if a.outcome.Threw? then Some(a.outcome.fault) else None)
    && authenticated == (if a.outcome.Returned? then a.outcome.authenticated else wasAuthenticated)
  }

  class LoginFormEx {
    const ticket: string
    var firstLogin: bool
    var authenticated: bool
    var requestToken: string
    var username: string
    var password: string
    var loginEnabled: bool
    var dialogResult: DialogResult
    var closed: bool

    /** Until the first click nothing has been attempted: no success and no token yet. */
    ghost predicate Valid()
      reads this
    {
      firstLogin ==> !authenticated && requestToken == ""
    }

    /** The Login button's rule: both boxes filled in and not yet authenticated. */
    predicate LoginAllowed()
      reads this
    {
      |password| > 0 && |username| > 0 && !authenticated
    }

    /** LoginFormEx(boxProvider, ticket); the designer's initial Enabled state of the Login
        button is an input. */
    constructor (ticket: string, loginInitiallyEnabled: bool)
      ensures Valid() && this.ticket == ticket
      ensures firstLogin && !authenticated && requestToken == ""
      ensures username == "" && password == "" && loginEnabled == loginInitiallyEnabled
      ensures dialogResult == NoResult && !closed
    {
      this.ticket := ticket;
      firstLogin := true;
      authenticated := false;
      requestToken := "";
      username, password := "", "";
      loginEnabled := loginInitiallyEnabled;
      dialogResult := NoResult;
      closed := false;
    }

    /** EnableLoginButton. */
    method EnableLoginButton()
      modifies this`loginEnabled
      ensures loginEnabled == LoginAllowed()
    {
      loginEnabled := |password| > 0 && |username| > 0 && !authenticated;
    }

    /** textBoxUsername_TextChanged: the user edited the user name. */
    method UsernameChanged(text: string)
      requires Valid()
      modifies this`username, this`loginEnabled
      ensures Valid() && username == text && loginEnabled == LoginAllowed()
    {
      username := text;
      EnableLoginButton();
    }

    /** textBoxPassword_TextChanged: the user edited the password. */
    method PasswordChanged(text: string)
      requires Valid()
      modifies this`password, this`loginEnabled
      ensures Valid() && password == text && loginEnabled == LoginAllowed()
    {
      password := text;
      EnableLoginButton();
    }

    /** btnLogin_Click, with `get` and `post` the transport's replies to the requests the attempt
        issues (`get` is not consumed by a retry). An exception escaping the attempt leaves the
        handler at once: `authenticated` keeps its value and the button is not re-evaluated, but
        `firstLogin` is already cleared and the token holds what the out/ref parameter received. */
    method LoginClick(get: Reply, post: Reply) returns (escaped: Option<Fault>, sent: seq<Request>)
      requires Valid()
      modifies this`firstLogin, this`authenticated, this`requestToken, this`loginEnabled
      modifies this`dialogResult, this`closed
      ensures Valid() && !firstLogin
      ensures old(firstLogin) ==>
                Applied(FirstLoginSpec(ticket, old(username), old(password), get, post),
                        requestToken, authenticated, old(authenticated), escaped, sent)
      ensures !old(firstLogin) ==>
                Applied(SubmitSpec(ticket, old(username), old(password), old(requestToken), post),
                        requestToken, authenticated, old(authenticated), escaped, sent)
      ensures escaped.None? ==> loginEnabled == LoginAllowed()
      ensures escaped.Some? ==> loginEnabled == old(loginEnabled)
      ensures dialogResult == if old(firstLogin) && authenticated then OK else old(dialogResult)
      ensures closed == (old(closed) || (old(firstLogin) && authenticated))
    {
      var a: Attempt;
      var first := firstLogin;
      if first {
        a := AuthenticateUser(ticket, username, password, get, post);
        firstLogin := false;
      } else {
        a := AuthenticateUserEx(ticket, username, password, requestToken, post);
      }
      escaped, sent := Conclude(a, first);
    }

    /** What btnLogin_Click does with the attempt's result: hold its token, let its exception
        escape, or record its return value, re-evaluate the button and, after a first attempt
        that succeeded, close the dialog with OK. */
    method Conclude(a: Attempt, first: bool) returns (escaped: Option<Fault>, sent: seq<Request>)
      modifies this`authenticated, this`requestToken, this`loginEnabled, this`dialogResult, this`closed
      ensures Applied(a, requestToken, authenticated, old(authenticated), escaped, sent)
      ensures escaped.None? ==> loginEnabled == LoginAllowed()
      ensures escaped.Some? ==> loginEnabled == old(loginEnabled)
      ensures dialogResult == if first && escaped.None? && authenticated then OK else old(dialogResult)
      ensures closed == (old(closed) || (first && escaped.None? && authenticated))
    {
      requestToken := a.requestToken;
      sent := a.sent;
      if a.outcome.Threw? {
        return Some(a.outcome.fault), sent;
      }
      escaped := None;
      authenticated := a.outcome.authenticated;
      EnableLoginButton();
      if first && authenticated {
        dialogResult := OK;
        closed := true;
      }
    }

    /** btnClose_Click: cancel and close, whatever the state. */
    method CloseClick()
      modifies this`dialogResult, this`closed
      ensures dialogResult == Cancel && closed
    {
      dialogResult := Cancel;
      closed := true;
    }
  }
}
