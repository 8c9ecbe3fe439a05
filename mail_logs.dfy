/**
 * The admin gate and the query normalisation of routes/mail-logs.js: the admin token
 * is read from `x-admin-token` or from an `Authorization: Bearer` header and compared
 * with `ADMIN_TOKEN` on its UTF-8 bytes; `limit` and `q` are bounded before the logs
 * are fetched.
 */
module MailLogs {
  import opened Optional
  import opened JsText
  import opened Utf8Bytes

  // ----- the token comparison -----

  /** `safeEqual(expected, provided)`: byte comparison of the UTF-8 encodings, refused
      when the expected value is empty or the lengths differ. */
  function SafeEqual(expected: string, provided: string): bool {
    var a := Utf8(expected);
    var b := Utf8(provided);
    if |a| == 0 || |a| != |b| then false else a == b
  }

  /** The byte comparison is string equality, refused for an empty expected value; an
      empty provided token never passes. */
  lemma SafeEqualExactly(expected: string, provided: string)
    ensures SafeEqual(expected, provided) <==> expected != "" && expected == provided
    ensures !SafeEqual(expected, "")
  {
    if expected != "" && Utf8(expected) == Utf8(provided) {
      Utf8Injective(expected, provided);
    }
  }

  /** `extractAdminToken(req)`, from the two headers (`None` when absent). */
  function ExtractAdminToken(xAdminToken: Option<string>, authorization: Option<string>): (token: string)
    ensures xAdminToken.Some? && |xAdminToken.value| > 0 ==> token == Trim(xAdminToken.value)
  {
    if xAdminToken.Some? && |xAdminToken.value| > 0 then Trim(xAdminToken.value)
    else AuthorizationToken(authorization)
  }

  /** The token of an `Authorization` header: the trimmed rest after a "bearer "
      prefix in any case, else "". */
  function AuthorizationToken(authorization: Option<string>): string {
    if authorization.Some? && |authorization.value| > 0 then BearerToken(Trim(authorization.value)) else ""
  }

  function BearerToken(value: string): string {
    if StartsWith(Lower(value), "bearer ") then Trim(value[7..]) else ""
  }

  /** Without an `x-admin-token` header, `Authorization: Bearer <token>` (any case of
      the scheme) yields the token. */
  lemma BearerYieldsToken(scheme: string, token: string)
    requires Lower(scheme) == "bearer "
    requires |token| > 0 && !IsSpace(token[0]) && !IsSpace(token[|token| - 1])
    ensures ExtractAdminToken(None, Some(scheme + token)) == token
  {
    var v := scheme + token;
    BearerTrimmed(scheme, token);
    BearerPrefix(scheme, token);
    AuthorizationOf(v);
    BearerTokenOf(v, token);
    TrimUntouched(token);
  }

  lemma AuthorizationOf(v: string)
    requires |v| > 0
    ensures ExtractAdminToken(None, Some(v)) == BearerToken(Trim(v))
  {
  }

  lemma BearerTokenOf(v: string, token: string)
    requires StartsWith(Lower(v), "bearer ") && |v| >= 7 && v[7..] == token
    ensures BearerToken(v) == Trim(token)
  {
  }

  /** White space around the `Authorization` value does not matter. */
  lemma AuthorizationPadding(h: string, before: string, after: string)
    requires AllSpace(before) && AllSpace(after)
    ensures ExtractAdminToken(None, Some(before + (h + after))) == ExtractAdminToken(None, Some(h))
  {
    var padded := before + (h + after);
    TrimPadded(before, h, after);
    if |h| == 0 {
      assert Trim(h) == [];
      assert BearerToken([]) == "";
    } else {
      assert |padded| > 0;
    }
  }

  /** The header value has no white space to trim off. */
  lemma BearerTrimmed(scheme: string, token: string)
    requires Lower(scheme) == "bearer "
    requires token != [] && !IsSpace(token[0]) && !IsSpace(token[|token| - 1])
    ensures Trim(scheme + token) == scheme + token
  {
    var v := scheme + token;
    SchemeShape(scheme);
    assert v[0] == scheme[0] && v[|v| - 1] == token[|token| - 1];
    TrimUntouched(v);
  }

  /** The header value starts with the scheme and the token follows it. */
  lemma BearerPrefix(scheme: string, token: string)
    requires Lower(scheme) == "bearer "
    ensures StartsWith(Lower(scheme + token), "bearer ") && |scheme + token| >= 7 && (scheme + token)[7..] == token
  {
    SchemeShape(scheme);
    LowerPrefix(scheme, token);
  }

  lemma SchemeShape(scheme: string)
    requires Lower(scheme) == "bearer "
    ensures |scheme| == 7 && !IsSpace(scheme[0])
  {
    assert LowerChar(scheme[0]) == 'b';
    CaseKeepsSpace(scheme[0]);
  }

  lemma LowerPrefix(a: string, b: string)
    ensures Lower(a + b)[..|a|] == Lower(a)
  {
  }

  /** Any other `Authorization` value, or none, yields no token. */
  lemma NoBearerNoToken(xAdminToken: Option<string>, authorization: Option<string>)
    requires xAdminToken.None? || |xAdminToken.value| == 0
    requires authorization.None? || !StartsWith(Lower(Trim(authorization.value)), "bearer ")
    ensures ExtractAdminToken(xAdminToken, authorization) == ""
  {
  }

  /** A blank but present `x-admin-token` header still wins: the token is "" and the
      `Authorization` header is not read. */
  lemma BlankHeaderShadowsBearer(h: string, authorization: Option<string>)
    requires h != "" && AllSpace(h)
    ensures ExtractAdminToken(Some(h), authorization) == ""
  {
    TrimEmpty(h);
  }

  /** What `requireAdmin` does with a request. */
  datatype Gate = Unavailable | Unauthorized | Next

  function Status(g: Gate): nat
    requires !g.Next?
  {
    if g.Unavailable? then 503 else 401
  }

  /** `ADMIN_TOKEN = String(process.env.ADMIN_TOKEN || "").trim()`. */
  function AdminToken(env: Option<string>): string {
    Trim(if env.Some? then env.value else "")
  }

  /** `requireAdmin(req, res, next)`. */
  function RequireAdmin(adminToken: string, xAdminToken: Option<string>, authorization: Option<string>): Gate {
    if adminToken == "" then Unavailable
    else if !SafeEqual(adminToken, ExtractAdminToken(xAdminToken, authorization)) then Unauthorized
    else Next
  }

  /** Unset token: 503 for everyone. Otherwise a request passes exactly when the token it
      carries equals the configured one. */
  lemma RequireAdminExactly(adminToken: string, xAdminToken: Option<string>, authorization: Option<string>)
    ensures adminToken == "" <==> RequireAdmin(adminToken, xAdminToken, authorization) == Unavailable
    ensures RequireAdmin(adminToken, xAdminToken, authorization) == Next <==>
      adminToken != "" && ExtractAdminToken(xAdminToken, authorization) == adminToken
  {
    SafeEqualExactly(adminToken, ExtractAdminToken(xAdminToken, authorization));
  }

  // ----- the query of GET /api/mail-logs -----

  const DefaultLimit: int := 200
  const MaxLimit: int := 1000
  const MaxQuery: nat := 300

  /** `limit`: `Number(req.query.limit || 200)`, truncated and clamped to [1, 1000];
      a non-number gives 200. */
  function Limit(query: Option<string>): (limit: int)
    ensures 1 <= limit <= MaxLimit
  {
    var raw := if query.Some? && query.value != "" then ToNumber(query.value) else Some(DefaultLimit);
    if raw.None? then DefaultLimit
    else if raw.value > MaxLimit then MaxLimit
    else if raw.value < 1 then 1
    else raw.value
  }

  /** A limit already in range is kept, one out of range is brought to the nearest
      bound, and an absent or unreadable one is 200. */
  lemma LimitClamps(query: Option<string>)
    ensures var raw := if query.Some? && query.value != "" then ToNumber(query.value) else Some(DefaultLimit);
      && (raw.Some? && 1 <= raw.value <= MaxLimit ==> Limit(query) == raw.value)
      && (raw.Some? && raw.value > MaxLimit ==> Limit(query) == MaxLimit)
      && (raw.Some? && raw.value < 1 ==> Limit(query) == 1)
      && (raw.None? ==> Limit(query) == DefaultLimit)
  {
  }

  lemma LimitOfNumber(n: nat)
    ensures Limit(Some(Dec(n))) == if n == 0 then 1 else if n > MaxLimit then MaxLimit else n
  {
    ToNumberDec(n);
  }

  /** `q`: `String(req.query.q || "").slice(0, 300)`. */
  function SearchText(query: Option<string>): (q: string)
    ensures |q| <= MaxQuery
  {
    Take(if query.Some? then query.value else "", MaxQuery)
  }

  /** The search text is a prefix of the query, all of it when it fits. */
  lemma SearchTextPrefix(s: string)
    ensures SearchText(Some(s)) == s[..|SearchText(Some(s))|]
    ensures |s| <= MaxQuery <==> SearchText(Some(s)) == s
  {
  }
}
