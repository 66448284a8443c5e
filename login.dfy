/** The admin login page: when the form may be sent, and what a login
    answer does to the session and to the browser's location. */
module AdminLogin {
  import opened Wrappers
  import opened Strings
  import opened Session

  /** `isFormValid`: both fields hold something besides white space. */
  predicate IsFormValid(username: string, password: string) {
    Trim(username) != "" && Trim(password) != ""
  }

  /** A form is valid exactly when each field has a visible character. */
  lemma FormValidIffVisible(username: string, password: string)
    ensures IsFormValid(username, password) <==>
      (exists i :: 0 <= i < |username| && !IsWhitespace(username[i])) &&
      (exists j :: 0 <= j < |password| && !IsWhitespace(password[j]))
  {
  }

  /** `roleToPath[role] || '/admin'`: the dashboard for `ADMIN`, the login
      page for any other role or none. */
  function RoleToPath(role: Option<string>): (path: string)
    ensures path == "/admin/dashboard" <==> role == Some("ADMIN")
    ensures path != "/admin/dashboard" ==> path == "/admin"
  {
    if role == Some("ADMIN") then "/admin/dashboard" else "/admin"
  }

  /** The end of a login attempt: a redirect, or the failure notification. */
  datatype Outcome = Redirect(path: string) | Failed

  /** Where a freshly stored token sends the browser, read at `now`. */
  function RedirectFor(token: string, decode: string -> Option<Claims>, now: int): string {
    RoleToPath(match DecodeToken(Some(token), decode, now) case Some(c) => Some(c.role) case None => None)
  }

  /** A live admin token opens the dashboard; an expired or unreadable one
      leaves the user on the login page. */
  lemma AdminTokenRedirects(token: string, decode: string -> Option<Claims>, now: int)
    requires token != ""
    ensures RedirectFor(token, decode, now) == "/admin/dashboard" <==>
      decode(token).Some? && decode(token).value.role == "ADMIN"
      && (decode(token).value.exp.None? || decode(token).value.exp.value * 1000 >= now)
  {
  }

  class LoginPage {
    var username: string
    var password: string
    var localLoading: bool

    constructor()
      ensures username == "" && password == "" && !localLoading
    {
      username := "";
      password := "";
      localLoading := false;
    }

    /** `handleSubmit` given the answer of `POST /auth/login`: without a
        token the attempt fails and nothing is stored; with one, the token
        is stored first and the role is then read from the stored token. */
    method HandleSubmit(session: SessionProvider, answer: Exchange, now: int) returns (outcome: Outcome)
      modifies this`localLoading, session
      ensures !localLoading
      ensures outcome.Failed? <==> answer.Rejected? || !HasToken(answer.jwtToken)
      ensures outcome.Failed? ==> session.slot == old(session.slot)
      ensures outcome.Redirect? ==>
        session.slot == answer.jwtToken
        && outcome.path == RedirectFor(answer.jwtToken.value, session.decode, now)
    {
      localLoading := true;
      if answer.Rejected? || !HasToken(answer.jwtToken) {
        outcome := Failed;
      } else {
        var jwtToken := answer.jwtToken.value;
        session.SetJwtToken(jwtToken);
        var role := session.GetRole(now);
        outcome := Redirect(RoleToPath(role));
      }
      localLoading := false;
    }
  }
}
