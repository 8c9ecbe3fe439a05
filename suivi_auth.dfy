/**
 * The login of the dossier-tracking module (suivi-dossier/index.js): a password selects
 * one of five roles, the first configured role whose password it equals winning, and
 * the session receives a payload derived from the role.
 */
module SuiviAuth {
  import opened Optional
  import opened JsText
  import opened JsonValue

  datatype Role = STE | BG | CHASSE | LIMITED | ADMIN

  /** The role as the source spells it. */
  function Name(r: Role): (s: string)
    ensures Upper(s) == s && s != ""
  {
    match r
    case STE => "STE"
    case BG => "BG"
    case CHASSE => "CHASSE"
    case LIMITED => "LIMITED"
    case ADMIN => "ADMIN"
  }

  /** The `ATELIER_SUIVI_PASS_*` variables, "" when unset. */
  datatype Passwords = Passwords(ste: string, bg: string, limited: string, chasse: string, admin: string)

  function PasswordOf(env: Passwords, r: Role): string {
    match r
    case STE => env.ste
    case BG => env.bg
    case CHASSE => env.chasse
    case LIMITED => env.limited
    case ADMIN => env.admin
  }

  /** The order in which roles are tried. */
  const Order: seq<Role> := [STE, BG, CHASSE, LIMITED, ADMIN]

  /** `String(password || "").trim()`. */
  function Typed(password: Option<Json>): string {
    Trim(Text(password))
  }

  /** `resolveSuiviRole(password)`. */
  function ResolveRole(env: Passwords, password: Option<Json>): Option<Role> {
    Resolve(env, Typed(password))
  }

  /** The if-chain on the trimmed password `pw`. */
  function Resolve(env: Passwords, pw: string): Option<Role> {
    if pw == "" then None
    else if env.ste != "" && pw == env.ste then Some(STE)
    else if env.bg != "" && pw == env.bg then Some(BG)
    else if env.chasse != "" && pw == env.chasse then Some(CHASSE)
    else if env.limited != "" && pw == env.limited then Some(LIMITED)
    else if env.admin != "" && pw == env.admin then Some(ADMIN)
    else None
  }

  /** The position of a role in the order. */
  function Rank(r: Role): nat {
    match r
    case STE => 0
    case BG => 1
    case CHASSE => 2
    case LIMITED => 3
    case ADMIN => 4
  }

  /** Reference: the first role of `order` configured with password `pw`. */
  function FirstMatch(order: seq<Role>, env: Passwords, pw: string): (r: Option<Role>)
    ensures r.Some? ==> r.value in order && PasswordOf(env, r.value) == pw && pw != ""
    ensures r.None? ==> forall i :: 0 <= i < |order| ==> PasswordOf(env, order[i]) == "" || PasswordOf(env, order[i]) != pw
  {
    if order == [] then None
    else if PasswordOf(env, order[0]) != "" && PasswordOf(env, order[0]) == pw then Some(order[0])
    else FirstMatch(order[1..], env, pw)
  }

  /** The if-chain of `resolveSuiviRole` is the first match in the order STE, BG,
      CHASSE, LIMITED, ADMIN on the trimmed password. */
  lemma ResolveIsFirstMatch(env: Passwords, password: Option<Json>)
    ensures ResolveRole(env, password) == FirstMatch(Order, env, Typed(password))
  {
    ChainIsFirstMatch(env, Typed(password));
  }

  lemma ChainIsFirstMatch(env: Passwords, pw: string)
    ensures Resolve(env, pw) == FirstMatch(Order, env, pw)
  {
    var o1: seq<Role> := [BG, CHASSE, LIMITED, ADMIN];
    var o2: seq<Role> := [CHASSE, LIMITED, ADMIN];
    var o3: seq<Role> := [LIMITED, ADMIN];
    var o4: seq<Role> := [ADMIN];
    FirstMatchStep(Order, o1, env, pw);
    FirstMatchStep(o1, o2, env, pw);
    FirstMatchStep(o2, o3, env, pw);
    FirstMatchStep(o3, o4, env, pw);
    FirstMatchStep(o4, [], env, pw);
  }

  lemma FirstMatchStep(order: seq<Role>, rest: seq<Role>, env: Passwords, pw: string)
    requires |order| > 0 && rest == order[1..]
    ensures FirstMatch(order, env, pw) ==
      if PasswordOf(env, order[0]) != "" && PasswordOf(env, order[0]) == pw then Some(order[0])
      else FirstMatch(rest, env, pw)
  {
  }

  /** A blank or white-space-only password gets no role. */
  lemma BlankGetsNoRole(env: Passwords, password: Option<Json>)
    requires AllSpace(Text(password))
    ensures ResolveRole(env, password).None?
  {
    TrimEmpty(Text(password));
  }

  /** A granted role has a configured password, equal to the trimmed input; a role
      whose password is unset is never granted; and no role earlier in the order has the
      same password. */
  lemma GrantedRole(env: Passwords, password: Option<Json>, r: Role)
    requires ResolveRole(env, password) == Some(r)
    ensures PasswordOf(env, r) != "" && PasswordOf(env, r) == Typed(password)
    ensures forall q :: Rank(q) < Rank(r) ==> PasswordOf(env, q) == "" || PasswordOf(env, q) != PasswordOf(env, r)
  {
    EarlierRolesMissed(env, Typed(password), r);
  }

  lemma EarlierRolesMissed(env: Passwords, pw: string, r: Role)
    requires Resolve(env, pw) == Some(r)
    ensures PasswordOf(env, r) != "" && PasswordOf(env, r) == pw
    ensures forall q :: Rank(q) < Rank(r) ==> PasswordOf(env, q) == "" || PasswordOf(env, q) != pw
  {
    forall q | Rank(q) < Rank(r)
      ensures PasswordOf(env, q) == "" || PasswordOf(env, q) != pw
    {
      match q
      case STE =>
      case BG =>
      case CHASSE =>
      case LIMITED =>
      case ADMIN =>
    }
  }

  /** No role is refused when some role has the (trimmed, non-blank) password. */
  lemma NoMatchMeansNoRole(env: Passwords, password: Option<Json>)
    requires ResolveRole(env, password).None?
    ensures forall r :: PasswordOf(env, r) == "" || PasswordOf(env, r) != Typed(password) || Typed(password) == ""
  {
    NoRoleMatches(env, Typed(password));
  }

  lemma NoRoleMatches(env: Passwords, pw: string)
    requires Resolve(env, pw).None?
    ensures forall r :: PasswordOf(env, r) == "" || PasswordOf(env, r) != pw || pw == ""
  {
    forall r
      ensures PasswordOf(env, r) == "" || PasswordOf(env, r) != pw || pw == ""
    {
      match r
      case STE =>
      case BG =>
      case CHASSE =>
      case LIMITED =>
      case ADMIN =>
    }
  }

  /** A configured password with white space at either end can never be typed: the
      input is trimmed before comparing and the configured value is not. */
  lemma PaddedPasswordUnreachable(env: Passwords, password: Option<Json>, r: Role)
    requires PasswordOf(env, r) != "" && (IsSpace(PasswordOf(env, r)[0]) || IsSpace(PasswordOf(env, r)[|PasswordOf(env, r)| - 1]))
    ensures ResolveRole(env, password) != Some(r)
  {
    PaddedNeverMatches(env, Typed(password), r);
  }

  lemma PaddedNeverMatches(env: Passwords, pw: string, r: Role)
    requires PasswordOf(env, r) != "" && (IsSpace(PasswordOf(env, r)[0]) || IsSpace(PasswordOf(env, r)[|PasswordOf(env, r)| - 1]))
    requires pw == [] || (!IsSpace(pw[0]) && !IsSpace(pw[|pw| - 1]))
    ensures Resolve(env, pw) != Some(r)
  {
    if Resolve(env, pw) == Some(r) {
      EarlierRolesMissed(env, pw, r);
    }
  }

  /** What the session remembers about a login. */
  datatype Payload = Payload(role: string, isLimited: bool, viewMode: string)

  /** `asSessionPayload(role)`. */
  function AsSessionPayload(role: string): Payload {
    var r := Upper(role);
    Payload(r, r == "LIMITED", if r == "LIMITED" then "ALL" else r)
  }

  /** The payload of a granted role names it; LIMITED is the one limited role and sees
      every view, the others see their own. */
  lemma PayloadOfRole(r: Role)
    ensures AsSessionPayload(Name(r)).role == Name(r)
    ensures AsSessionPayload(Name(r)).isLimited <==> r == LIMITED
    ensures AsSessionPayload(Name(r)).viewMode == if r == LIMITED then "ALL" else Name(r)
  {
  }

  /** The view mode is never LIMITED, and the payload does not depend on the case of
      the role name. */
  lemma PayloadShape(role: string)
    ensures AsSessionPayload(role).viewMode != "LIMITED"
    ensures AsSessionPayload(role) == AsSessionPayload(Lower(role))
  {
    UpperOfLower(role);
  }

  /** How `POST /api/login` ends. `Threw` is a TypeError the handler does not catch,
      which Express's default error handler answers with a bare 500. */
  datatype LoginReply = Refused(status: nat, message: string) | Threw | LoggedIn(payload: Payload)

  const NotConfigured: string := "suivi_password_not_configured"
  const WrongPassword: string := "Mot de passe incorrect."
  const SessionError: string := "session_error"
  const SessionSaveFailed: string := "session_save_failed"

  predicate AnyPassword(env: Passwords) {
    env.ste != "" || env.bg != "" || env.limited != "" || env.chasse != "" || env.admin != ""
  }

  /** `POST /api/login` with body field `password`; `regenFails` and `saveFails` are the
      outcomes of the session store. `String(password || "")` throws on a password that
      is an object with its own `toString` (see `StrThrows`). */
  function Login(env: Passwords, password: Option<Json>, regenFails: bool, saveFails: bool): LoginReply {
    Decide(AnyPassword(env), TextThrows(password), ResolveRole(env, password), regenFails, saveFails)
  }

  /** The handler's chain of answers, once the configuration is known, the password
      converted (or not) and the role resolved. */
  function Decide(configured: bool, throws: bool, role: Option<Role>, regenFails: bool, saveFails: bool): LoginReply {
    if !configured then Refused(503, NotConfigured)
    else if throws then Threw
    else if role.None? then Refused(401, WrongPassword)
    else if regenFails then Refused(500, SessionError)
    else if saveFails then Refused(500, SessionSaveFailed)
    else LoggedIn(AsSessionPayload(Name(role.value)))
  }

  /** The 503, the uncaught TypeError and the 401 come before the session is touched:
      none depends on the session store, and a login succeeds only with a password that
      converts and resolves to a role. */
  lemma LoginGuards(env: Passwords, password: Option<Json>, regenFails: bool, saveFails: bool)
    ensures !AnyPassword(env) ==> Login(env, password, regenFails, saveFails) == Refused(503, NotConfigured)
    ensures Login(env, password, regenFails, saveFails) == Threw <==> AnyPassword(env) && TextThrows(password)
    ensures AnyPassword(env) && !TextThrows(password) && ResolveRole(env, password).None? ==>
      Login(env, password, regenFails, saveFails) == Refused(401, WrongPassword)
    ensures Login(env, password, regenFails, saveFails).LoggedIn? <==>
      !TextThrows(password) && ResolveRole(env, password).Some? && !regenFails && !saveFails
    ensures Login(env, password, regenFails, saveFails).LoggedIn? ==>
      Login(env, password, regenFails, saveFails).payload == AsSessionPayload(Name(ResolveRole(env, password).value))
  {
    ResolvedMeansConfigured(env, Typed(password));
    DecideGuards(AnyPassword(env), TextThrows(password), ResolveRole(env, password), regenFails, saveFails);
  }

  lemma DecideGuards(configured: bool, throws: bool, role: Option<Role>, regenFails: bool, saveFails: bool)
    requires role.Some? ==> configured
    ensures !configured ==> Decide(configured, throws, role, regenFails, saveFails) == Refused(503, NotConfigured)
    ensures Decide(configured, throws, role, regenFails, saveFails) == Threw <==> configured && throws
    ensures configured && !throws && role.None? ==> Decide(configured, throws, role, regenFails, saveFails) == Refused(401, WrongPassword)
    ensures Decide(configured, throws, role, regenFails, saveFails).LoggedIn? <==> !throws && role.Some? && !regenFails && !saveFails
    ensures Decide(configured, throws, role, regenFails, saveFails).LoggedIn? ==>
      Decide(configured, throws, role, regenFails, saveFails).payload == AsSessionPayload(Name(role.value))
  {
  }

  /** A password resolves to a role only when some password is configured. */
  lemma ResolvedMeansConfigured(env: Passwords, pw: string)
    ensures Resolve(env, pw).Some? ==> AnyPassword(env)
  {
  }
}
