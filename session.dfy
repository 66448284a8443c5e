/** The client-side session: one browser storage slot holding a bearer
    token, the decoding of its claims against a millisecond clock, the
    route-aware logout, the refresh exchange and the periodic liveness tick.

    The JWT parser is the `decode` function the session is built with (a
    token it cannot parse decodes to `None`); the clock is the `now`
    parameter, in milliseconds; the answer of the refresh endpoint is the
    `answer` parameter, so every contract holds for every answer. */
module Session {
  import opened Wrappers
  import opened Strings

  /** The claims of a token: subject, role and `exp`, a NumericDate in
      seconds (section 4.1.4 of RFC 7519), which a token may leave out.
      `None` stands for a missing `exp` only, which compares as `NaN`. A claim
      `exp: null` is `Some(0)`: `null * 1000` is 0 and `null` is falsy. */
  datatype Claims = Claims(sub: string, role: string, exp: Option<int>)

  /** The navigation side effect of a logout. */
  datatype Action = NoAction | NavigateTo(path: string) | Reload

  /** What `POST /auth/refresh` gives back: a response body, whose
      `jwtToken` may be missing, or a thrown error. */
  datatype Exchange = Issued(jwtToken: Option<string>) | Rejected

  /** The storage key of the slot. */
  const TokenKey := "amc-jwt-token"

  /** `localStorage.getItem(TOKEN_KEY)` is truthy: a stored, non-empty token. */
  predicate HasToken(stored: Option<string>) {
    stored.Some? && stored.value != ""
  }

  /** `exp * 1000 < Date.now()`: seconds in the token, milliseconds on the
      clock. Without `exp` the product is `NaN` and the comparison false. */
  predicate IsExpired(c: Claims, now: int) {
    c.exp.Some? && c.exp.value * 1000 < now
  }

  /** `decodeToken`: the claims of the stored token, unless there is none,
      it does not parse, or it expired strictly before `now`. */
  function DecodeToken(stored: Option<string>, decode: string -> Option<Claims>, now: int): (r: Option<Claims>)
    ensures r.Some? <==>
      && HasToken(stored) && decode(stored.value).Some?
      && (decode(stored.value).value.exp.None? || decode(stored.value).value.exp.value * 1000 >= now)
    ensures r.Some? ==> r == decode(stored.value)
  {
    if !HasToken(stored) then None
    else match decode(stored.value)
      case None => None
      case Some(c) => if IsExpired(c, now) then None else Some(c)
  }

  /** At the very millisecond of expiry a token still decodes; one
      millisecond later it no longer does. */
  lemma ExpiryBoundary(token: string, decode: string -> Option<Claims>, c: Claims)
    requires token != "" && decode(token) == Some(c) && c.exp.Some?
    ensures DecodeToken(Some(token), decode, c.exp.value * 1000) == Some(c)
    ensures DecodeToken(Some(token), decode, c.exp.value * 1000 + 1) == None
  {
  }

  /** A path in the areas that render differently once logged out. */
  predicate InMemberArea(pathname: string) {
    StartsWith(pathname, "/rewards") || StartsWith(pathname, "/artist-portal")
  }

  /** The route-aware policy applied after the slot is cleared: reload only
      a member-area page that had a token, send any page below the admin
      root back to `/admin`, and leave every other page alone. */
  function LogoutAction(hadToken: bool, pathname: string): (a: Action)
    ensures a == Reload <==> hadToken && InMemberArea(pathname)
    ensures a.NavigateTo? <==> StartsWith(pathname, "/admin/")
    ensures a.NavigateTo? ==> a.path == "/admin"
  {
    AdminAreaIsApart(pathname);
    if !hadToken && InMemberArea(pathname) then NoAction
    else if pathname == "/admin" then NoAction
    else if StartsWith(pathname, "/admin/") then NavigateTo("/admin")
    else if InMemberArea(pathname) then Reload
    else NoAction
  }

  /** No page below the admin root is the root itself or in a member area. */
  lemma AdminAreaIsApart(pathname: string)
    ensures StartsWith(pathname, "/admin/") ==> pathname != "/admin" && !InMemberArea(pathname)
  {
    if StartsWith(pathname, "/admin/") {
      assert pathname[1] == 'a' && pathname[2] == 'd';
      if |pathname| >= 8 { assert pathname[..8][1] == 'a'; }
      if |pathname| >= 14 { assert pathname[..14][2] == 'd'; }
    }
  }

  /** What `refresh` does with the stored token before any answer arrives. */
  datatype RefreshPlan = Skip | LogOut | CallRefresh(bearer: string)

  /** The decisions `refresh` takes: nothing without a token; log out when
      the token does not parse or has expired; otherwise call the endpoint
      with the stored token as bearer. It calls the endpoint exactly when the
      getters see a live session. */
  function PlanRefresh(stored: Option<string>, decode: string -> Option<Claims>, now: int): (p: RefreshPlan)
    ensures p == Skip <==> !HasToken(stored)
    ensures p.CallRefresh? <==> DecodeToken(stored, decode, now).Some?
    ensures p.CallRefresh? ==> Some(p.bearer) == stored
  {
    if !HasToken(stored) then Skip
    else match decode(stored.value)
      case None => LogOut
      case Some(c) => if IsExpired(c, now) then LogOut else CallRefresh(stored.value)
  }

  datatype TickDecision = LogOutNow | RefreshNow

  /** The decision of one `checkSession` tick: refresh while the token has
      time left (`exp * 1000 - now > 0`), log out otherwise. A token that
      does not decode, or whose `exp` is 0, counts as `timeLeft = -1`. */
  function Tick(stored: Option<string>, decode: string -> Option<Claims>, now: int): (d: TickDecision)
    ensures d == RefreshNow <==>
      DecodeToken(stored, decode, now).Some? && DecodeToken(stored, decode, now).value.exp.Some?
      && DecodeToken(stored, decode, now).value.exp.value != 0
      && DecodeToken(stored, decode, now).value.exp.value * 1000 > now
    ensures d == RefreshNow ==> PlanRefresh(stored, decode, now).CallRefresh?
  {
    if !HasToken(stored) then LogOutNow
    else
      var exp := match DecodeToken(stored, decode, now)
        case Some(c) => c.exp
        case None => None;
      var timeLeft := if exp.Some? && exp.value != 0 then exp.value * 1000 - now else -1;
      if timeLeft <= 0 then LogOutNow else RefreshNow
  }

  /** At the very millisecond of expiry the getters still return the claims,
      but the tick already logs out. */
  lemma TickLogsOutAtExpiry(token: string, decode: string -> Option<Claims>, c: Claims)
    requires token != "" && decode(token) == Some(c) && c.exp.Some?
    ensures DecodeToken(Some(token), decode, c.exp.value * 1000) == Some(c)
    ensures Tick(Some(token), decode, c.exp.value * 1000) == LogOutNow
  {
  }

  /** A token without `exp` never expires for the getters, yet every tick
      logs it out, since `getExp()` is falsy. */
  lemma TokenWithoutExpiry(token: string, decode: string -> Option<Claims>, c: Claims, now: int)
    requires token != "" && decode(token) == Some(c) && c.exp.None?
    ensures DecodeToken(Some(token), decode, now) == Some(c)
    ensures PlanRefresh(Some(token), decode, now) == CallRefresh(token)
    ensures Tick(Some(token), decode, now) == LogOutNow
  {
  }

  /** The text `setJwtToken(res.data.jwtToken)` stores: storage turns a
      missing value into the string "undefined". */
  function IssuedText(jwtToken: Option<string>): string {
    jwtToken.GetOr("undefined")
  }

  /** The session provider and the storage slot it owns. */
  class SessionProvider {
    /** `localStorage[TOKEN_KEY]` */
    var slot: Option<string>
    /** `jwtDecode`, `None` where it throws. */
    const decode: string -> Option<Claims>

    constructor (decode: string -> Option<Claims>, stored: Option<string>)
      ensures this.decode == decode && slot == stored
    {
      this.decode := decode;
      slot := stored;
    }

    /** `getToken`: the raw slot, whatever it holds. */
    function GetToken(): (t: Option<string>)
      reads this
      ensures t == slot
    {
      slot
    }

    /** `getUserId`: the subject of a live token, else `None`. */
    function GetUserId(now: int): (r: Option<string>)
      reads this
      ensures r.Some? <==> DecodeToken(slot, decode, now).Some?
      ensures r.Some? ==> HasToken(slot) && r.value == decode(slot.value).value.sub
    {
      match DecodeToken(slot, decode, now)
      case Some(c) => Some(c.sub)
      case None => None
    }

    /** `getRole`: the role of a live token, else `None`. */
    function GetRole(now: int): (r: Option<string>)
      reads this
      ensures r.Some? <==> DecodeToken(slot, decode, now).Some?
      ensures r.Some? ==> HasToken(slot) && r.value == decode(slot.value).value.role
    {
      match DecodeToken(slot, decode, now)
      case Some(c) => Some(c.role)
      case None => None
    }

    /** `getExp`: the expiry of a live token; `None` for no live token, and
        for a live token without `exp`, where the source returns `undefined`. */
    function GetExp(now: int): (r: Option<int>)
      reads this
      ensures r.Some? <==> DecodeToken(slot, decode, now).Some? && DecodeToken(slot, decode, now).value.exp.Some?
      ensures r.Some? ==> HasToken(slot) && Some(r.value) == decode(slot.value).value.exp && r.value * 1000 >= now
    {
      match DecodeToken(slot, decode, now)
      case Some(c) => c.exp
      case None => None
    }

    /** `getAuthHeaders`: a bearer header exactly when a token is stored,
        whether or not it has expired (no clock is consulted). */
    function GetAuthHeaders(): (h: map<string, string>)
      reads this
      ensures h.Keys == if HasToken(slot) then {"Authorization"} else {}
      ensures HasToken(slot) ==> h["Authorization"] == "Bearer " + slot.value
    {
      if HasToken(slot) then map["Authorization" := "Bearer " + slot.value] else map[]
    }

    /** `setJwtToken`: the slot holds exactly `jwt`, replacing any token. */
    method SetJwtToken(jwt: string)
      modifies this
      ensures slot == Some(jwt)
    {
      slot := Some(jwt);
    }

    /** `logout`: clears the slot, then applies the route policy to whether
        a token was there. */
    method Logout(pathname: string) returns (action: Action)
      modifies this
      ensures slot == None
      ensures action == LogoutAction(HasToken(old(slot)), pathname)
    {
      var token := slot;
      slot := None;
      if !HasToken(token) {
        if InMemberArea(pathname) {
          return NoAction;
        }
      }
      if pathname == "/admin" {
        action := NoAction;
      } else if StartsWith(pathname, "/admin/") {
        action := NavigateTo("/admin");
      } else if InMemberArea(pathname) {
        action := Reload;
      } else {
        action := NoAction;
      }
    }

    /** `refresh`: returns the navigation it causes and the bearer token it
        sent to the refresh endpoint, if it called it. Every failure ends in
        `logout`, with the token still counted as present. */
    method Refresh(now: int, pathname: string, answer: Exchange) returns (action: Action, bearer: Option<string>)
      modifies this
      ensures match PlanRefresh(old(slot), decode, now)
        case Skip => slot == old(slot) && action == NoAction && bearer == None
        case LogOut => slot == None && action == LogoutAction(true, pathname) && bearer == None
        case CallRefresh(t) =>
          && bearer == Some(t)
          && (answer.Issued? ==> slot == Some(IssuedText(answer.jwtToken)) && action == NoAction)
          && (answer.Rejected? ==> slot == None && action == LogoutAction(true, pathname))
    {
      bearer := None;
      var existing := slot;
      if !HasToken(existing) {
        return NoAction, None;
      }
      var decoded := decode(existing.value);
      if decoded.None? || IsExpired(decoded.value, now) {
        action := Logout(pathname);
        return;
      }
      bearer := Some(existing.value);
      match answer {
        case Issued(jwtToken) =>
          SetJwtToken(IssuedText(jwtToken));
          action := NoAction;
        case Rejected =>
          action := Logout(pathname);
      }
    }

    /** One `checkSession` tick, run to completion with one clock reading. */
    method CheckSession(now: int, pathname: string, answer: Exchange) returns (action: Action, bearer: Option<string>)
      modifies this
      ensures Tick(old(slot), decode, now) == LogOutNow ==>
        slot == None && bearer == None && action == LogoutAction(HasToken(old(slot)), pathname)
      ensures Tick(old(slot), decode, now) == RefreshNow ==>
        && bearer == old(slot)
        && (answer.Issued? ==> slot == Some(IssuedText(answer.jwtToken)) && action == NoAction)
        && (answer.Rejected? ==> slot == None && action == LogoutAction(true, pathname))
    {
      var token := GetToken();
      if !HasToken(token) {
        action := Logout(pathname);
        return action, None;
      }
      var exp := GetExp(now);
      var timeLeft := if exp.Some? && exp.value != 0 then exp.value * 1000 - now else -1;
      if timeLeft <= 0 {
        action := Logout(pathname);
        return action, None;
      }
      action, bearer := Refresh(now, pathname, answer);
    }
  }

  /** Two logouts in a row: the slot stays empty and the second one acts as
      for a visitor without a token. */
  method LogoutTwice(s: SessionProvider, pathname: string) returns (first: Action, second: Action)
    modifies s
    ensures s.slot == None
    ensures first == LogoutAction(HasToken(old(s.slot)), pathname)
    ensures second == LogoutAction(false, pathname)
    ensures second != Reload
  {
    first := s.Logout(pathname);
    second := s.Logout(pathname);
  }

  /** A token that expired ten seconds ago, seen by the tick on an admin
      page: the slot is cleared and the page goes to the admin root. */
  method ExpiredTokenOnAdminPage() returns (action: Action, after: Option<string>)
    ensures action == NavigateTo("/admin") && after == None
  {
    var now := 1_700_000_000_000;
    var s := new SessionProvider(t => if t == "T1" then Some(Claims("u1", "ADMIN", Some(now / 1000 - 10))) else None, Some("T1"));
    assert StartsWith("/admin/dashboard", "/admin/");
    var sent;
    action, sent := s.CheckSession(now, "/admin/dashboard", Rejected);
    after := s.slot;
  }

  /** A token with an hour left and a refresh answered with `T2`: the slot
      now holds `T2`, and the exchange carried the old token. */
  method LiveTokenRefreshed() returns (bearer: Option<string>, after: Option<string>)
    ensures bearer == Some("T1") && after == Some("T2")
  {
    var now := 1_700_000_000_000;
    var s := new SessionProvider(t => if t == "T1" then Some(Claims("u1", "ADMIN", Some(now / 1000 + 3600))) else None, Some("T1"));
    var a, b := s.CheckSession(now, "/admin/dashboard", Issued(Some("T2")));
    bearer, after := b, s.slot;
  }

  /** A rejected refresh on a member page: the slot is cleared and the page
      reloads. */
  method RejectedRefreshOnMemberPage() returns (action: Action, after: Option<string>)
    ensures action == Reload && after == None
  {
    var now := 1_700_000_000_000;
    var s := new SessionProvider(t => if t == "T1" then Some(Claims("u1", "MEMBER", Some(now / 1000 + 3600))) else None, Some("T1"));
    assert StartsWith("/rewards/offers", "/rewards");
    var sent;
    action, sent := s.Refresh(now, "/rewards/offers", Rejected);
    after := s.slot;
  }

  /** No token on a member page: logging out does nothing at all. */
  method LogoutWithoutTokenOnMemberPage() returns (action: Action, after: Option<string>)
    ensures action == NoAction && after == None
  {
    var s := new SessionProvider(t => None, None);
    assert StartsWith("/rewards/offers", "/rewards");
    action := s.Logout("/rewards/offers");
    after := s.slot;
  }
}
