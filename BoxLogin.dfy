/** The legacy ticket-based login of BoxProvider: the text scraping that decides whether a login
    succeeded and which request token the next form submission must carry, and the two login
    steps (first attempt with a GET of the login page, retries that only POST the form).

    The transport is an oracle: each step receives the replies the server would give and
    returns the requests it issued, the value it returned (or the exception that escaped it)
    and the request token it leaves in its out/ref parameter. */
module BoxLogin {
  import opened Outcomes
  import opened Transport
  import opened StringSearch

  /** Literal whose presence in a POST response means the credentials were accepted. */
  const SuccessMarker: string := "api_auth_success"

  /** Literal that precedes the quoted request token in a login page. */
  const RequestTokenMarker: string := "request_token"

  const Quote: char := '\''

  /** The login page's address after its scheme. */
  const AuthPath: string := "://www.box.net/api/1.0/auth/"

  /** Login page fetched by the first attempt (plain http). */
  function AuthPageUrl(ticket: string): (r: string)
    ensures |r| >= 7 + |ticket| && r[..7] == "http://" && r[|r| - |ticket|..] == ticket
  {
    "http" + AuthPath + ticket
  }

  /** Form action every attempt posts to (https). */
  function LoginActionUrl(ticket: string): (r: string)
    ensures |r| >= 8 + |ticket| && r[..8] == "https://" && r[|r| - |ticket|..] == ticket
  {
    "https" + AuthPath + ticket
  }

  /** The form is posted to the login page's own address, but over https. */
  lemma LoginUrlsDifferInScheme(ticket: string)
    ensures LoginActionUrl(ticket) == "https" + AuthPageUrl(ticket)[4..]
    ensures AuthPageUrl(ticket) != LoginActionUrl(ticket)
  {
  }

  /** The names of the thirteen fields of the login form, in submission order. */
  const LoginFieldNames: seq<string> := [
    "login", "password", "_pw_sql", "remember_login", "__login", "dologin", "reg_step",
    "submit1", "folder", "skip_framework_login", "login_or_register_mode",
    "new_login_or_register_mode", "request_token"
  ]

  /** The login form as it is added to the NameValueCollection: the field names above, each with
      its value. */
  function LoginForm(userName: string, password: string, requestToken: string): (form: seq<Field>)
    ensures |form| == |LoginFieldNames|
    ensures forall i :: 0 <= i < |form| ==> form[i].name == LoginFieldNames[i]
    ensures form[0].value == userName && form[1].value == password && form[12].value == requestToken
  {
    Pairs(LoginFieldNames,
          [userName, password, "", "on", "1", "1", "", "1", "", "1", "login", "", requestToken])
  }

  /** The form always carries the same thirteen field names, in the same order, no name twice. */
  lemma LoginFormNames(userName: string, password: string, requestToken: string)
    ensures Names(LoginForm(userName, password, requestToken)) == LoginFieldNames
    ensures forall i, j :: 0 <= i < j < |LoginFieldNames| ==> LoginFieldNames[i] != LoginFieldNames[j]
  {
    LoginFieldNamesDistinct();
  }

  /** Only `login`, `password` and `request_token` depend on the arguments; the ten other fields
      are the same in every submission. */
  lemma LoginFormValues(u: string, p: string, t: string, u': string, p': string, t': string)
    ensures LoginForm(u, p, t)[0].value == u && LoginForm(u, p, t)[1].value == p
    ensures LoginForm(u, p, t)[12].value == t
    ensures forall i :: 2 <= i < 12 ==> LoginForm(u, p, t)[i] == LoginForm(u', p', t')[i]
  {
  }

  lemma LoginFieldNamesDistinct()
    ensures forall i, j :: 0 <= i < j < |LoginFieldNames| ==> LoginFieldNames[i] != LoginFieldNames[j]
  {
  }

  /** String.Substring(start, length): throws unless the range lies inside `s`. */
  function Substring(s: string, start: int, length: int): (r: Result<string>)
    ensures r.Ok? <==> 0 <= start && 0 <= length && start + length <= |s|
    ensures r.Ok? ==> |r.value| == length && r.value == s[start..start + length]
    ensures r.Err? ==> r.fault == ArgumentOutOfRange
  {
    if 0 <= start && 0 <= length && start + length <= |s| then Ok(s[start..start + length])
    else Err(ArgumentOutOfRange)
  }

  /** CheckAuthenticated: the POST response reports a successful login. */
  function CheckAuthenticated(htmlText: string): (r: bool)
    ensures r <==> Contains(htmlText, SuccessMarker)
  {
    IndexOfFirst(htmlText, SuccessMarker);
    IndexOf(htmlText, SuccessMarker, 0) != -1
  }

  /** ExtractRequestToken, with the index arithmetic of BoxProvider.ExtractRequestToken: the text between the first
      quote at or after the first `request_token` and the next quote. A missing quote is not
      checked for: the search for the opening quote may yield -1, which silently restarts the
      search for the closing quote at the start of the text, and a missing closing quote yields a
      negative Substring length. */
  function ExtractRequestToken(responseText: string): (r: Result<string>)
    ensures !Contains(responseText, RequestTokenMarker) ==> r == Ok("")
    ensures r.Ok? ==> Quote !in r.value
    ensures r.Err? ==> r.fault == ArgumentOutOfRange && Contains(responseText, RequestTokenMarker)
  {
    IndexOfFirst(responseText, RequestTokenMarker);
    var idx := IndexOf(responseText, RequestTokenMarker, 0);
    if idx == -1 then Ok("")
    else
      var startIdx := IndexOfChar(responseText, Quote, idx);
      var endIdx := IndexOfChar(responseText, Quote, startIdx + 1);
      Substring(responseText, startIdx + 1, endIdx - startIdx - 1)
  }

  /** The ordinary case: the token is the text strictly between the first quote after the
      marker and the quote after that. */
  lemma ExtractBetweenQuotes(body: string, idx: int, s: int, e: int)
    requires FirstOccurrence(body, RequestTokenMarker, idx)
    requires FirstCharFrom(body, Quote, idx, s)
    requires FirstCharFrom(body, Quote, s + 1, e)
    ensures ExtractRequestToken(body) == Ok(body[s + 1..e])
  {
    IndexOfIsFirst(body, RequestTokenMarker, idx);
    IndexOfCharIsFirst(body, Quote, idx, s);
    IndexOfCharIsFirst(body, Quote, s + 1, e);
  }

  /** An opening quote after the marker with no closing quote makes Substring throw. */
  lemma ExtractUnclosedQuoteFails(body: string, idx: int, s: int)
    requires FirstOccurrence(body, RequestTokenMarker, idx)
    requires FirstCharFrom(body, Quote, idx, s)
    requires NoCharFrom(body, Quote, s + 1)
    ensures ExtractRequestToken(body) == Err(ArgumentOutOfRange)
  {
    IndexOfFirst(body, RequestTokenMarker);
  }

  /** No quote after the marker: the opening index is -1, the closing search restarts at 0, and
      the "token" is everything before the first quote of the body, which lies before the marker. */
  lemma ExtractFallsBackToPrefix(body: string, idx: int, e: int)
    requires FirstOccurrence(body, RequestTokenMarker, idx)
    requires NoCharFrom(body, Quote, idx)
    requires FirstCharFrom(body, Quote, 0, e)
    ensures e < idx
    ensures ExtractRequestToken(body) == Ok(body[..e])
  {
    IndexOfFirst(body, RequestTokenMarker);
  }

  /** The marker is present but the body has no quote at all: Substring(0, -1) throws. */
  lemma ExtractWithoutQuotesFails(body: string)
    requires Contains(body, RequestTokenMarker)
    requires NoCharFrom(body, Quote, 0)
    ensures ExtractRequestToken(body) == Err(ArgumentOutOfRange)
  {
    IndexOfFirst(body, RequestTokenMarker);
  }

  /** What one login attempt yields: the value it returns (or the exception that escapes it), the
      request token left in its out/ref parameter, and the requests it issued. */
  datatype Outcome = Returned(authenticated: bool) | Threw(fault: Fault)
  datatype Attempt = Attempt(outcome: Outcome, requestToken: string, sent: seq<Request>)

  /** Specification of posting the login form with a held request token: success iff the response
      carries the success marker; a WebException is swallowed and reported as failure with the token
      unchanged; otherwise the token is replaced by the one scraped from the response, and a
      response whose token cannot be scraped throws. */
  ghost function SubmitSpec(ticket: string, userName: string, password: string, token: string, post: Reply): (a: Attempt)
    ensures a.sent == [Post(LoginActionUrl(ticket), LoginForm(userName, password, token))]
    ensures a.outcome == Returned(true) <==> post.Page? && Contains(post.text, SuccessMarker)
    ensures post.WebFailure? ==> a.outcome == Returned(false) && a.requestToken == token
  {
    var sent := [Post(LoginActionUrl(ticket), LoginForm(userName, password, token))];
    match post
    case WebFailure => Attempt(Returned(false), token, sent)
    case Page(html) =>
      if Contains(html, SuccessMarker) then Attempt(Returned(true), token, sent)
      else
        match ExtractRequestToken(html)
        case Ok(next) => Attempt(Returned(false), next, sent)
        case Err(f) => Attempt(Threw(f), token, sent)
  }

  /** Specification of the first attempt: GET the login page (a failure escapes), scrape its
      request token (a scraping failure escapes, before any POST), then submit as above. The
      out parameter is cleared to "" before anything can throw. */
  ghost function FirstLoginSpec(ticket: string, userName: string, password: string, get: Reply, post: Reply): (a: Attempt)
    ensures |a.sent| >= 1 && a.sent[0] == Get(AuthPageUrl(ticket))
    ensures get.WebFailure? ==> a == Attempt(Threw(WebError), "", [Get(AuthPageUrl(ticket))])
  {
    var sent := [Get(AuthPageUrl(ticket))];
    match get
    case WebFailure => Attempt(Threw(WebError), "", sent)
    case Page(page) =>
      match ExtractRequestToken(page)
      case Err(f) => Attempt(Threw(f), "", sent)
      case Ok(token) =>
        var a := SubmitSpec(ticket, userName, password, token, post);
        Attempt(a.outcome, a.requestToken, sent + a.sent)
  }

  /** AuthenticateUserEx: POST the form with the held token (`ref requestToken`). */
  method AuthenticateUserEx(ticket: string, userName: string, password: string, requestToken: string, post: Reply)
    returns (a: Attempt)
    ensures a == SubmitSpec(ticket, userName, password, requestToken, post)
  {
    var authSuccess := false;
    var token := requestToken;
    var formFields := LoginForm(userName, password, token);
    var sent := [Post(LoginActionUrl(ticket), formFields)];
    match post {
      case WebFailure =>
        // the WebException is caught and only traced
      case Page(htmlText) =>
        if CheckAuthenticated(htmlText) {
          authSuccess := true;
        } else {
          var next := ExtractRequestToken(htmlText);
          if next.Err? {
            return Attempt(Threw(next.fault), token, sent);
          }
          token := next.value;
          authSuccess := false;
        }
    }
    a := Attempt(Returned(authSuccess), token, sent);
  }

  /** AuthenticateUser: GET the login page, scrape the request token, then POST the form
      (`out requestToken`). */
  method AuthenticateUser(ticket: string, userName: string, password: string, get: Reply, post: Reply)
    returns (a: Attempt)
    ensures a == FirstLoginSpec(ticket, userName, password, get, post)
  {
    var requestToken := "";
    var url := AuthPageUrl(ticket);
    var sent := [Get(url)];
    if get.WebFailure? {
      return Attempt(Threw(WebError), requestToken, sent);
    }
    var extracted := ExtractRequestToken(get.text);
    if extracted.Err? {
      return Attempt(Threw(extracted.fault), requestToken, sent);
    }
    requestToken := extracted.value;
    var submitted := AuthenticateUserEx(ticket, userName, password, requestToken, post);
    a := Attempt(submitted.outcome, submitted.requestToken, sent + submitted.sent);
  }

  /** Every submission carries, in its `request_token` field, exactly the token it was given. */
  lemma SubmitCarriesHeldToken(ticket: string, userName: string, password: string, token: string, post: Reply)
    ensures var p := SubmitSpec(ticket, userName, password, token, post).sent[0];
      p.Post? && p.url == LoginActionUrl(ticket) && p.form[12] == Field("request_token", token)
  {
  }

  /** On a rejected login with a readable response, the held token is replaced by the one scraped
      from that response; a success leaves the token as it was. */
  lemma SubmitReplacesToken(ticket: string, userName: string, password: string, token: string, post: Reply)
    requires post.Page?
    ensures var a := SubmitSpec(ticket, userName, password, token, post);
      (a.outcome == Returned(true) ==> a.requestToken == token) &&
      (a.outcome == Returned(false) ==> Ok(a.requestToken) == ExtractRequestToken(post.text)) &&
      (a.outcome.Threw? ==> ExtractRequestToken(post.text).Err? && a.requestToken == token)
  {
  }

  /** A token free of quotes stays free of quotes across any attempt. */
  lemma TokensNeverHoldQuotes(ticket: string, userName: string, password: string, token: string, get: Reply, post: Reply)
    requires Quote !in token
    ensures Quote !in SubmitSpec(ticket, userName, password, token, post).requestToken
    ensures Quote !in FirstLoginSpec(ticket, userName, password, get, post).requestToken
  {
  }

  /** The first attempt posts only when the login page was fetched and its token scraped, and then
      posts exactly that token; it succeeds iff the POST response carries the success marker. */
  lemma FirstLoginPostsScrapedToken(ticket: string, userName: string, password: string, get: Reply, post: Reply)
    ensures var a := FirstLoginSpec(ticket, userName, password, get, post);
      (|a.sent| == 2 <==> get.Page? && ExtractRequestToken(get.text).Ok?) &&
      (|a.sent| == 2 ==> a.sent[1] == Post(LoginActionUrl(ticket),
                                            LoginForm(userName, password, ExtractRequestToken(get.text).value))) &&
      (|a.sent| == 1 ==> a.outcome.Threw? && a.requestToken == "") &&
      (a.outcome == Returned(true) <==> |a.sent| == 2 && post.Page? && Contains(post.text, SuccessMarker))
  {
  }

  /** Once the login page's token was scraped, the first attempt leaves in its out parameter the
      next token: a failed POST is swallowed and keeps the page's token, a rejection installs the
      token scraped from the response, and an exception from that scrape keeps the page's token. */
  lemma FirstLoginReplacesToken(ticket: string, userName: string, password: string, get: Reply, post: Reply)
    requires get.Page? && ExtractRequestToken(get.text).Ok?
    ensures var a := FirstLoginSpec(ticket, userName, password, get, post);
      var scraped := ExtractRequestToken(get.text).value;
      (post.WebFailure? ==> a.outcome == Returned(false) && a.requestToken == scraped) &&
      (post.Page? && a.outcome == Returned(false) ==> Ok(a.requestToken) == ExtractRequestToken(post.text)) &&
      (a.outcome.Threw? ==> a.requestToken == scraped) &&
      (a.outcome == Returned(true) ==> a.requestToken == scraped)
  {
  }
}
