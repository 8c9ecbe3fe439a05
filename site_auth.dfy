/**
 * The browser side of the site login (assets/auth.js): a flag and a timestamp kept in
 * `localStorage` remember a login for 30 days, a third key throttles the server session
 * check to once per 10 minutes, and the `redirect` query value is only followed when it
 * starts with a single "/" and holds no NUL. The clock (`Date.now()`) is a parameter.
 */
module SiteAuth {
  import opened Optional
  import opened JsText

  const AuthKey: string := "dd_auth_ok_v1"
  const AuthTsKey: string := "dd_auth_ts_v1"
  const LastCheckKey: string := "dd_auth_last_check_v1"

  /** 30 days in milliseconds. */
  const AuthTtlMs: int := 30 * 24 * 60 * 60 * 1000
  /** 10 minutes in milliseconds. */
  const SessionCheckEveryMs: int := 10 * 60 * 1000

  type Items = map<string, string>

  /** `localStorage.getItem(key)`; `None` is `null`. */
  function GetItem(items: Items, key: string): Option<string> {
    if key in items then Some(items[key]) else None
  }

  /** `Number(localStorage.getItem(key) || "0")`; `None` is NaN. */
  function StoredNumber(items: Items, key: string): Option<int> {
    var v := GetItem(items, key);
    ToNumber(if v.Some? && v.value != "" then v.value else "0")
  }

  /** The login is remembered: the flag is "1" and the timestamp a positive number. */
  predicate Remembered(items: Items) {
    var ts := StoredNumber(items, AuthTsKey);
    GetItem(items, AuthKey) == Some("1") && ts.Some? && ts.value > 0
  }

  /** What `isAuthed()` answers at time `now`. */
  predicate Authed(items: Items, now: int) {
    Remembered(items) && now - StoredNumber(items, AuthTsKey).value <= AuthTtlMs
  }

  /** `isAuthed()` found a remembered login older than the time to live. */
  predicate Expired(items: Items, now: int) {
    Remembered(items) && now - StoredNumber(items, AuthTsKey).value > AuthTtlMs
  }

  /** The store after `clearAuthed()`. */
  function Cleared(items: Items): (r: Items)
    ensures forall k :: k in r <==> k in items && k != AuthKey && k != AuthTsKey && k != LastCheckKey
    ensures forall k :: k in r ==> r[k] == items[k]
  {
    items - {AuthKey, AuthTsKey, LastCheckKey}
  }

  /** The store after `setAuthed()` at time `now`. */
  function Stamped(items: Items, now: nat): Items {
    items[AuthKey := "1"][AuthTsKey := Dec(now)]
  }

  /** The store after `markSessionChecked()` at time `now`. */
  function Checked(items: Items, now: nat): Items {
    items[LastCheckKey := Dec(now)]
  }

  /** What `shouldCheckSession()` answers at time `now`. */
  predicate ShouldCheck(items: Items, now: int) {
    var last := StoredNumber(items, LastCheckKey);
    last.None? || last.value <= 0 || now - last.value > SessionCheckEveryMs
  }

  /** The page's `localStorage`. */
  class LocalStorage {
    var items: Items

    constructor(initial: Items)
      ensures items == initial
    {
      items := initial;
    }

    /** `isAuthed()`: a remembered login that has expired is cleared on the way. */
    method IsAuthed(now: int) returns (ok: bool)
      modifies this
      ensures ok == Authed(old(items), now)
      ensures items == if Expired(old(items), now) then Cleared(old(items)) else old(items)
    {
      if GetItem(items, AuthKey) != Some("1") {
        return false;
      }
      var ts := StoredNumber(items, AuthTsKey);
      if ts.None? || ts.value <= 0 {
        return false;
      }
      if now - ts.value > AuthTtlMs {
        ClearAuthed();
        return false;
      }
      return true;
    }

    /** `setAuthed()`. */
    method SetAuthed(now: nat)
      modifies this
      ensures items == Stamped(old(items), now)
    {
      items := items[AuthKey := "1"];
      items := items[AuthTsKey := Dec(now)];
    }

    /** `clearAuthed()`. */
    method ClearAuthed()
      modifies this
      ensures items == Cleared(old(items))
    {
      items := items - {AuthKey};
      items := items - {AuthTsKey};
      items := items - {LastCheckKey};
    }

    /** `shouldCheckSession()`: reads the store and changes nothing. */
    method ShouldCheckSession(now: int) returns (b: bool)
      ensures b <==> ShouldCheck(items, now)
    {
      var last := StoredNumber(items, LastCheckKey);
      if last.None? || last.value <= 0 {
        return true;
      }
      return now - last.value > SessionCheckEveryMs;
    }

    /** `markSessionChecked()`. */
    method MarkSessionChecked(now: nat)
      modifies this
      ensures items == Checked(old(items), now)
    {
      items := items[LastCheckKey := Dec(now)];
    }

    /** `requireAuth()`: without a remembered login the page goes to the login form;
        otherwise, when the throttle allows, the server is asked, and only its 401 logs
        the browser out. `reply` is the outcome of the session request and `replyTime`
        the clock when it arrives. */
    method RequireAuth(prefix: string, encodedDest: string, now: int, reply: SessionReply, replyTime: nat)
      returns (nav: Navigation)
      modifies this
      ensures !Authed(old(items), now) ==>
        nav == GoTo(LoginUrl(prefix, encodedDest))
        && items == if Expired(old(items), now) then Cleared(old(items)) else old(items)
      ensures Authed(old(items), now) && !ShouldCheck(old(items), now) ==>
        nav == Stay && items == old(items)
      ensures Authed(old(items), now) && ShouldCheck(old(items), now) ==>
        nav == SessionNav(reply, prefix, encodedDest)
        && items == AfterSessionCheck(old(items), reply, replyTime)
    {
      var ok := IsAuthed(now);
      if !ok {
        return GoTo(LoginUrl(prefix, encodedDest));
      }
      var check := ShouldCheckSession(now);
      if !check {
        return Stay;
      }
      match reply {
        case NetworkError =>
          nav := Stay;
        case Status(code) =>
          MarkSessionChecked(replyTime);
          if code == 401 {
            ClearAuthed();
            nav := GoTo(LoginUrl(prefix, encodedDest));
          } else {
            nav := Stay;
          }
      }
    }
  }

  /** What the page does next: stay, or replace its location. */
  datatype Navigation = Stay | GoTo(url: string)

  /** How the `/api/site/session` request ends: an HTTP status, or a rejected fetch. */
  datatype SessionReply = Status(code: int) | NetworkError

  /** `prefix + "login.html?redirect=" + encodeURIComponent(dest)`, the destination
      already encoded. */
  function LoginUrl(prefix: string, encodedDest: string): string {
    prefix + "login.html?redirect=" + encodedDest
  }

  /** The store after the session request settles. */
  function AfterSessionCheck(items: Items, reply: SessionReply, replyTime: nat): Items {
    match reply
    case NetworkError => items
    case Status(code) =>
      if code == 401 then Cleared(Checked(items, replyTime)) else Checked(items, replyTime)
  }

  function SessionNav(reply: SessionReply, prefix: string, encodedDest: string): Navigation {
    if reply == Status(401) then GoTo(LoginUrl(prefix, encodedDest)) else Stay
  }

  // ----- properties of the stored state -----

  /** `isAuthed()` is false unless the flag is "1" and the timestamp is a positive
      number; with those it is true exactly while at most 30 days have passed, so at
      exactly 30 days it is still true. */
  lemma AuthedExactly(items: Items, ts: nat, now: int)
    requires GetItem(items, AuthTsKey) == Some(Dec(ts))
    ensures Authed(items, now) <==> GetItem(items, AuthKey) == Some("1") && ts > 0 && now - ts <= AuthTtlMs
    ensures Expired(items, now) <==> GetItem(items, AuthKey) == Some("1") && ts > 0 && now - ts > AuthTtlMs
  {
    ToNumberDec(ts);
    assert Dec(ts) != "";
  }

  /** An expired login is cleared and not answered; the store is then logged out. */
  lemma ExpiryClears(items: Items, now: int)
    requires Expired(items, now)
    ensures !Authed(items, now)
    ensures !Remembered(Cleared(items)) && !Authed(Cleared(items), now)
  {
    assert AuthKey !in Cleared(items);
  }

  /** After `setAuthed()` at time t > 0, `isAuthed()` holds at every t' with
      t' - t <= 30 days, and after that it reports an expired login. */
  lemma SetAuthedRoundTrip(items: Items, t: nat, later: int)
    requires t > 0
    ensures Authed(Stamped(items, t), later) <==> later - t <= AuthTtlMs
    ensures Expired(Stamped(items, t), later) <==> later - t > AuthTtlMs
  {
    var s := Stamped(items, t);
    assert GetItem(s, AuthTsKey) == Some(Dec(t));
    assert GetItem(s, AuthKey) == Some("1");
    AuthedExactly(s, t, later);
  }

  /** `clearAuthed()` removes the three keys of the login and leaves every other key as
      it was; a second call changes nothing. */
  lemma ClearFrame(items: Items, k: string)
    ensures k != AuthKey && k != AuthTsKey && k != LastCheckKey ==> GetItem(Cleared(items), k) == GetItem(items, k)
    ensures k == AuthKey || k == AuthTsKey || k == LastCheckKey ==> GetItem(Cleared(items), k) == None
    ensures Cleared(Cleared(items)) == Cleared(items)
  {
  }

  /** The throttle: with no usable last-check time the session is checked; otherwise it
      is checked exactly when more than 10 minutes have passed. */
  lemma ThrottleExactly(items: Items, last: nat, now: int)
    requires GetItem(items, LastCheckKey) == Some(Dec(last))
    ensures ShouldCheck(items, now) <==> last == 0 || now - last > SessionCheckEveryMs
  {
    ToNumberDec(last);
    assert Dec(last) != "";
  }

  lemma ThrottleUnset(items: Items, now: int)
    requires LastCheckKey !in items
    ensures ShouldCheck(items, now)
  {
    ToNumberDec(0);
  }

  /** `markSessionChecked()` at time t > 0 silences the check for the next 10 minutes
      and no longer. */
  lemma MarkSilences(items: Items, t: nat, later: int)
    requires t > 0
    ensures ShouldCheck(Checked(items, t), later) <==> later - t > SessionCheckEveryMs
  {
    ThrottleExactly(Checked(items, t), t, later);
  }

  /** Only a 401 from the server logs the browser out: any other status and a network
      error keep the login as it was. */
  lemma OnlyUnauthorizedLogsOut(items: Items, reply: SessionReply, replyTime: nat, now: int)
    ensures reply != Status(401) ==> Authed(AfterSessionCheck(items, reply, replyTime), now) == Authed(items, now)
    ensures reply == Status(401) ==> !Authed(AfterSessionCheck(items, reply, replyTime), now)
    ensures reply == NetworkError ==> AfterSessionCheck(items, reply, replyTime) == items
  {
    var after := AfterSessionCheck(items, reply, replyTime);
    if reply.Status? && reply.code != 401 {
      assert GetItem(after, AuthKey) == GetItem(items, AuthKey);
      assert GetItem(after, AuthTsKey) == GetItem(items, AuthTsKey);
    }
  }

  // ----- the redirect parameter -----

  /** `/^https?:\/\//i.test(r)`. */
  predicate IsHttpUrl(r: string) {
    StartsWith(Lower(r), "http://") || StartsWith(Lower(r), "https://")
  }

  /** `getRedirectTarget()`, given the `redirect` value of the query string. */
  function RedirectTarget(redirect: Option<string>): (t: Option<string>)
    ensures t.Some? ==> redirect == t
    ensures t.Some? ==> StartsWith(t.value, "/") && !StartsWith(t.value, "//")
                        && '\0' !in t.value && !IsHttpUrl(t.value)
  {
    if redirect.None? || redirect.value == "" then None
    else
      var r := redirect.value;
      if IsHttpUrl(r) then None
      else if StartsWith(r, "//") then None
      else if !StartsWith(r, "/") then None
      else if '\0' in r then None
      else Some(r)
  }

  /** The scheme check never decides: a value is followed exactly when it is a path
      starting with a single "/" and holding no NUL. */
  lemma RedirectTargetExactly(redirect: Option<string>)
    ensures RedirectTarget(redirect).Some? <==>
      redirect.Some? && StartsWith(redirect.value, "/") && !StartsWith(redirect.value, "//")
      && '\0' !in redirect.value
  {
    if redirect.Some? && StartsWith(redirect.value, "/") {
      var r := redirect.value;
      assert Lower(r)[0] == '/';
      assert !StartsWith(Lower(r), "http://") && !StartsWith(Lower(r), "https://");
    }
  }

  /** `goAfterLogin()`: the page opened after a successful login. */
  function AfterLogin(prefix: string, redirect: Option<string>): (url: string)
    ensures RedirectTarget(redirect).Some? ==> url == redirect.value
    ensures RedirectTarget(redirect).None? ==> url == prefix + "index.html"
  {
    var target := RedirectTarget(redirect);
    if target.Some? && target.value != "" then target.value else prefix + "index.html"
  }

  /** After a login the page opened is the site's index page or a value that starts with
      a single "/" and holds no NUL. That shape alone does not keep a browser on the site:
      see `RedirectLeavesSite`. */
  lemma AfterLoginTargetShape(prefix: string, redirect: Option<string>)
    ensures var url := AfterLogin(prefix, redirect);
      url == prefix + "index.html" || (StartsWith(url, "/") && !StartsWith(url, "//") && '\0' !in url)
  {
  }

  // ----- what a browser makes of the target -----

  /** A tab or a newline, which the WHATWG URL Standard's basic URL parser removes from
      its input before parsing. */
  predicate IsTabOrNewline(c: char) {
    c == '\t' || c == '\n' || c == '\r'
  }

  /** The URL as an `http(s)` page's `location.href` setter parses it: tabs and newlines
      removed, and each backslash read as "/", as the URL Standard does for special
      schemes. */
  function BrowserForm(url: string): (r: string)
    ensures |r| <= |url|
  {
    if url == [] then []
    else if IsTabOrNewline(url[0]) then BrowserForm(url[1..])
    else [if url[0] == '\\' then '/' else url[0]] + BrowserForm(url[1..])
  }

  /** A relative URL whose parsed form starts with two slashes names another host. */
  predicate LeavesSite(url: string) {
    StartsWith(BrowserForm(url), "//")
  }

  /** The check as written lets a backslash or a tab through after the leading "/":
      `/\evil.com` and `/<TAB>/evil.com` are followed, and both lead to the host
      `evil.com`. */
  lemma RedirectLeavesSite(prefix: string)
    ensures var r := "/\\evil.com";
      RedirectTarget(Some(r)) == Some(r) && AfterLogin(prefix, Some(r)) == r && LeavesSite(r)
    ensures var r := "/\t/evil.com";
      RedirectTarget(Some(r)) == Some(r) && AfterLogin(prefix, Some(r)) == r && LeavesSite(r)
  {
    BackslashLeaves(prefix);
    TabLeaves(prefix);
  }

  lemma BackslashLeaves(prefix: string)
    ensures var r := "/\\evil.com";
      RedirectTarget(Some(r)) == Some(r) && AfterLogin(prefix, Some(r)) == r && LeavesSite(r)
  {
    FollowedAndLeaves(prefix, "/\\evil.com", 1);
  }

  lemma TabLeaves(prefix: string)
    ensures var r := "/\t/evil.com";
      RedirectTarget(Some(r)) == Some(r) && AfterLogin(prefix, Some(r)) == r && LeavesSite(r)
  {
    FollowedAndLeaves(prefix, "/\t/evil.com", 2);
  }

  /** A value that starts with "/", then tabs or newlines up to index `k`, then "/" or a
      backslash, and holds no NUL, is followed and leaves the site, unless it starts
      with "//". */
  lemma FollowedAndLeaves(prefix: string, r: string, k: nat)
    requires 1 <= k < |r| && r[0] == '/' && r[1] != '/' && '\0' !in r
    requires forall i :: 1 <= i < k ==> IsTabOrNewline(r[i])
    requires r[k] == '/' || r[k] == '\\'
    ensures RedirectTarget(Some(r)) == Some(r) && AfterLogin(prefix, Some(r)) == r && LeavesSite(r)
  {
    RedirectTargetExactly(Some(r));
    assert BrowserForm(r) == "/" + BrowserForm(r[1..]);
    SkipsToSlash(r[1..], k - 1);
  }

  /** Tabs and newlines before a slash or backslash vanish and leave a "/" in front. */
  lemma {:induction false} SkipsToSlash(s: string, k: nat)
    requires k < |s| && (s[k] == '/' || s[k] == '\\')
    requires forall i :: 0 <= i < k ==> IsTabOrNewline(s[i])
    ensures BrowserForm(s) != [] && BrowserForm(s)[0] == '/'
    decreases k
  {
    if k > 0 {
      assert BrowserForm(s) == BrowserForm(s[1..]);
      SkipsToSlash(s[1..], k - 1);
    }
  }

  /** The redirect check as evidently intended: a path on the same site, so besides the
      checks as written no backslash and no control character (NUL, tab, newline, ...). */
  function SafeRedirectTarget(redirect: Option<string>): (t: Option<string>)
    ensures t.Some? ==> redirect == t && RedirectTarget(redirect) == t
  {
    match RedirectTarget(redirect)
    case None => None
    case Some(r) =>
      if exists i :: 0 <= i < |r| && (r[i] == '\\' || r[i] < ' ') then None else Some(r)
  }

  /** A target the corrected check lets through is, as the browser parses it, itself: a
      path that starts with a single "/", so the browser stays on the site. */
  lemma SafeRedirectStaysOnSite(redirect: Option<string>)
    ensures var t := SafeRedirectTarget(redirect);
      t.Some? ==> BrowserForm(t.value) == t.value && StartsWith(t.value, "/") && !LeavesSite(t.value)
  {
    var t := SafeRedirectTarget(redirect);
    if t.Some? {
      PlainBrowserForm(t.value);
    }
  }

  /** Without tabs, newlines and backslashes the browser reads a URL as it is. */
  lemma {:induction false} PlainBrowserForm(s: string)
    requires forall i :: 0 <= i < |s| ==> s[i] != '\\' && s[i] >= ' '
    ensures BrowserForm(s) == s
  {
    if s != [] {
      PlainBrowserForm(s[1..]);
    }
  }
}
