/**
 * The browser side of logging in, registering and logging out (frontend/js/auth.js):
 * what reaches localStorage, which page the browser goes to, and the text of the
 * message box.
 *
 * The server's reply is an input. The two-second delay before the redirect after
 * registering is a pending step that fires on its own.
 */
module AuthClient {
  import opened Wrappers
  import opened Text
  import opened AuthMiddleware

  /** What `fetch` and `response.json()` give: an ok reply with the token, the user's role
      and `JSON.stringify(data.user)`, an error reply with its `error` text, or a thrown
      failure (no connection, or a body that is not JSON). */
  datatype Reply = Accepted(token: string, role: string, userJson: string) | Refused(error: string) | Unreachable

  /** The fields of the registration form. */
  datatype RegisterForm = RegisterForm(
    firstName: string, lastName: string, email: string, studentNumber: string,
    password: string, confirmPassword: string, apiKey: string)

  /** The page's state: localStorage, `window.location.href`, the message box's text and
      the redirect the registration timer will make. */
  datatype Page = Page(storage: map<string, string>, location: string, message: Option<string>, pendingRedirect: Option<string>)

  datatype Headers = Headers(contentType: string, authorization: string)

  function SomethingWentWrong(): string { "Er ging iets mis. Probeer het opnieuw." }
  function PasswordsDiffer(): string { "Wachtwoorden komen niet overeen" }
  function InvalidKey(): string { "Voer een geldige OpenAI API key in" }
  function AccountCreated(): string { "Account succesvol aangemaakt!" }

  /** The page a user goes to after logging in. */
  function HomePage(role: string): (r: string)
    ensures r == "admin.html" <==> role == "admin" || role == "teacher"
    ensures r == "admin.html" || r == "dashboard.html"
  {
    if role == "admin" || role == "teacher" then "admin.html" else "dashboard.html"
  }

  /** The form's own checks, made before any request: the error shown, if any. The
      separate test for an empty key is subsumed by the `sk-` prefix test. */
  function RegistrationError(form: RegisterForm): (r: Option<string>)
    ensures r.None? <==> form.password == form.confirmPassword && StartsWith(form.apiKey, "sk-")
    ensures form.password != form.confirmPassword ==> r == Some(PasswordsDiffer())
    ensures form.password == form.confirmPassword && !StartsWith(form.apiKey, "sk-") ==> r == Some(InvalidKey())
  {
    if form.password != form.confirmPassword then Some(PasswordsDiffer())
    else if form.apiKey == "" || !StartsWith(form.apiKey, "sk-") then Some(InvalidKey())
    else None
  }

  /** An ok reply stores the token and the user. */
  function Stored(storage: map<string, string>, reply: Reply): map<string, string>
    requires reply.Accepted?
  {
    storage["token" := reply.token]["user" := reply.userJson]
  }

  /** The message a failed request shows. */
  function FailureText(reply: Reply): string
    requires !reply.Accepted?
  {
    if reply.Refused? then reply.error else SomethingWentWrong()
  }

  /** handleLogin once the reply is in. */
  function AfterLogin(p: Page, reply: Reply): (r: Page)
    ensures r.pendingRedirect == p.pendingRedirect
  {
    if reply.Accepted? then p.(storage := Stored(p.storage, reply), location := HomePage(reply.role))
    else p.(message := Some(FailureText(reply)))
  }

  /** handleRegister: the form's checks, then the reply. */
  function AfterRegister(p: Page, form: RegisterForm, reply: Reply): (r: Page)
    ensures r.location == p.location
  {
    match RegistrationError(form)
    case Some(e) => p.(message := Some(e))
    case None =>
      if reply.Accepted? then
        p.(storage := Stored(p.storage, reply), message := Some(AccountCreated()), pendingRedirect := Some("dashboard.html"))
      else p.(message := Some(FailureText(reply)))
  }

  /** The registration timer fires. */
  function RedirectFired(p: Page): (r: Page)
    requires p.pendingRedirect.Some?
    ensures r.pendingRedirect.None? && r.location == p.pendingRedirect.value
  {
    p.(location := p.pendingRedirect.value, pendingRedirect := None)
  }

  /** logout(). */
  function LoggedOut(p: Page): (r: Page)
    ensures "token" !in r.storage && "user" !in r.storage
    ensures forall k | k in p.storage && k != "token" && k != "user" :: k in r.storage && r.storage[k] == p.storage[k]
    ensures r.location == "login.html"
  {
    p.(storage := p.storage - {"token", "user"}, location := "login.html")
  }

  /** `!token` on `localStorage.getItem('token')`: a missing entry is null and an empty
      one is "", both falsy. */
  predicate HasToken(storage: map<string, string>) {
    "token" in storage && storage["token"] != ""
  }

  /** checkAuth(): whether a token is stored, sending the browser to the login page when
      not. */
  function CheckedAuth(p: Page): (r: (bool, Page))
    ensures r.0 <==> HasToken(p.storage)
    ensures r.0 ==> r.1 == p
    ensures !r.0 ==> r.1 == p.(location := "login.html")
  {
    if !HasToken(p.storage) then (false, p.(location := "login.html")) else (true, p)
  }

  /** The DOMContentLoaded handler: a stored token sends every page but the login page to
      the dashboard. */
  function Loaded(p: Page, pathname: string): (r: Page)
    ensures r.storage == p.storage
    ensures r.location != p.location ==> HasToken(p.storage) && !Contains(pathname, "login")
  {
    if HasToken(p.storage) && !Contains(pathname, "login") then p.(location := "dashboard.html") else p
  }

  /** getAuthHeaders(): the template literal turns a missing token into "null". */
  function HeadersFor(storage: map<string, string>): (r: Headers)
    ensures r.contentType == "application/json"
    ensures "token" in storage ==> r.authorization == "Bearer " + storage["token"]
    ensures "token" !in storage ==> r.authorization == "Bearer null"
  {
    Headers("application/json", "Bearer " + (if "token" in storage then storage["token"] else "null"))
  }

  class Browser {
    var storage: map<string, string>
    var location: string
    var message: Option<string>
    var pendingRedirect: Option<string>

    ghost function Snapshot(): Page
      reads this
    {
      Page(storage, location, message, pendingRedirect)
    }

    constructor (p: Page)
      ensures Snapshot() == p
    {
      storage := p.storage;
      location := p.location;
      message := p.message;
      pendingRedirect := p.pendingRedirect;
    }

    method ShowMessage(text: string)
      modifies this
      ensures Snapshot() == old(Snapshot()).(message := Some(text))
    {
      message := Some(text);
    }

    method HandleLogin(reply: Reply)
      modifies this
      ensures Snapshot() == AfterLogin(old(Snapshot()), reply)
    {
      if reply.Accepted? {
        storage := storage["token" := reply.token];
        storage := storage["user" := reply.userJson];
        if reply.role == "admin" || reply.role == "teacher" {
          location := "admin.html";
        } else {
          location := "dashboard.html";
        }
      } else if reply.Refused? {
        ShowMessage(reply.error);
      } else {
        ShowMessage(SomethingWentWrong());
      }
    }

    /** `reply` is what the request would give; it is not looked at when the form's own
        checks fail. */
    method HandleRegister(form: RegisterForm, reply: Reply) returns (sent: bool)
      modifies this
      ensures sent <==> RegistrationError(form).None?
      ensures Snapshot() == AfterRegister(old(Snapshot()), form, reply)
    {
      if form.password != form.confirmPassword {
        ShowMessage(PasswordsDiffer());
        return false;
      }
      if form.apiKey == "" || !StartsWith(form.apiKey, "sk-") {
        ShowMessage(InvalidKey());
        return false;
      }
      sent := true;
      if reply.Accepted? {
        storage := storage["token" := reply.token];
        storage := storage["user" := reply.userJson];
        ShowMessage(AccountCreated());
        pendingRedirect := Some("dashboard.html");
      } else if reply.Refused? {
        ShowMessage(reply.error);
      } else {
        ShowMessage(SomethingWentWrong());
      }
    }

    method FireRedirect()
      requires pendingRedirect.Some?
      modifies this
      ensures Snapshot() == RedirectFired(old(Snapshot()))
    {
      location := pendingRedirect.value;
      pendingRedirect := None;
    }

    method Logout()
      modifies this
      ensures Snapshot() == LoggedOut(old(Snapshot()))
    {
      storage := storage - {"token"};
      storage := storage - {"user"};
      location := "login.html";
    }

    method CheckAuth() returns (ok: bool)
      modifies this
      ensures (ok, Snapshot()) == CheckedAuth(old(Snapshot()))
    {
      var token := if "token" in storage then storage["token"] else "";
      if token == "" {
        location := "login.html";
        return false;
      }
      return true;
    }

    method OnLoad(pathname: string)
      modifies this
      ensures Snapshot() == Loaded(old(Snapshot()), pathname)
    {
      if "token" in storage && storage["token"] != "" && !Contains(pathname, "login") {
        location := "dashboard.html";
      }
    }

    method GetAuthHeaders() returns (h: Headers)
      ensures h == HeadersFor(storage)
    {
      var token := if "token" in storage then storage["token"] else "null";
      h := Headers("application/json", "Bearer " + token);
    }
  }

  /** After logging in, admins and teachers are on admin.html and everyone else on
      dashboard.html, with the token and user stored; a failed login shows the server's
      error, or the generic message when the request threw, and stores nothing. */
  lemma LoginOutcomes(p: Page, reply: Reply)
    ensures var r := AfterLogin(p, reply);
      && (reply.Accepted? ==> r.location == (if reply.role in {"admin", "teacher"} then "admin.html" else "dashboard.html")
                              && r.storage["token"] == reply.token && r.storage["user"] == reply.userJson)
      && (reply.Refused? ==> r == p.(message := Some(reply.error)))
      && (reply.Unreachable? ==> r == p.(message := Some(SomethingWentWrong())))
  {
  }

  /** A form that fails its own checks shows the error and nothing else changes, whatever
      the server would have said: no request is made. */
  lemma RegisterChecksComeFirst(p: Page, form: RegisterForm, reply1: Reply, reply2: Reply)
    requires RegistrationError(form).Some?
    ensures AfterRegister(p, form, reply1) == AfterRegister(p, form, reply2) == p.(message := RegistrationError(form))
  {
  }

  /** A key that is empty or lacks the `sk-` prefix is refused even with matching
      passwords. */
  lemma RegisterKeyRule(form: RegisterForm)
    requires form.password == form.confirmPassword
    ensures form.apiKey == "" ==> RegistrationError(form) == Some(InvalidKey())
    ensures RegistrationError(form).None? <==> |form.apiKey| >= 3 && form.apiKey[..3] == "sk-"
  {
  }

  /** A registration the server accepts ends, once its timer fires, on the dashboard
      with the session stored. */
  lemma RegisterThenRedirect(p: Page, form: RegisterForm, reply: Reply)
    requires RegistrationError(form).None? && reply.Accepted?
    ensures var r := RedirectFired(AfterRegister(p, form, reply));
      && r.location == "dashboard.html" && r.pendingRedirect.None?
      && r.storage == Stored(p.storage, reply) && r.message == Some(AccountCreated())
  {
  }

  /** The header a logged-in browser sends carries the stored token back to the
      server's extraction, and checkAuth passes. */
  lemma LoginThenAuthorised(p: Page, reply: Reply)
    requires reply.Accepted? && reply.token != "" && ' ' !in reply.token
    ensures var r := AfterLogin(p, reply);
      && BearerToken(Some(HeadersFor(r.storage).authorization)) == Some(reply.token)
      && CheckedAuth(r) == (true, r)
  {
    BearerHeaderRoundTrip(reply.token);
  }

  /** After logging out, checkAuth fails and sends the browser to login.html, and the
      header carries the word "null" instead of a token. */
  lemma LogoutEndsSession(p: Page)
    ensures var r := LoggedOut(p);
      && CheckedAuth(r) == (false, r)
      && HeadersFor(r.storage).authorization == "Bearer null"
      && BearerToken(Some(HeadersFor(r.storage).authorization)) == Some("null")
  {
    BearerHeaderRoundTrip("null");
  }
}
