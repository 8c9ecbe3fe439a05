/**
 * The deterministic part of atelier/email-sender.js: HTML escaping, line breaks,
 * the service-to-recipient table with its fallback, and the checks
 * `sendNewRequestEmail` and `sendPieceReturnedEmail` make before sending. The
 * `DEST_EMAIL_ATELIER_*` variables are a `MailEnv` ("" for unset); whether a
 * transporter is configured is a parameter.
 */
module AtelierMail {
  import opened Optional
  import opened JsText
  import opened JsonValue

  // ----- escapeHtml -----

  /** `.replace(/c/g, rep)` for a one-character pattern. */
  function ReplaceAll(s: string, c: char, rep: string): (r: string)
    ensures c !in rep ==> c !in r
  {
    if s == [] then []
    else (if s[0] == c then rep else [s[0]]) + ReplaceAll(s[1..], c, rep)
  }

  lemma {:induction false} ReplaceAllAppend(a: string, b: string, c: char, rep: string)
    ensures ReplaceAll(a + b, c, rep) == ReplaceAll(a, c, rep) + ReplaceAll(b, c, rep)
  {
    if |a| > 0 {
      var h := if a[0] == c then rep else [a[0]];
      assert (a + b)[0] == a[0] && (a + b)[1..] == a[1..] + b;
      ReplaceAllAppend(a[1..], b, c, rep);
      assert ReplaceAll(a + b, c, rep) == h + (ReplaceAll(a[1..], c, rep) + ReplaceAll(b, c, rep));
      assert ReplaceAll(a, c, rep) == h + ReplaceAll(a[1..], c, rep);
    } else {
      assert a + b == b;
    }
  }

  /** The five replacements of `escapeHtml`, in the source's order, `&` first. */
  function Escape(s: string): string {
    ReplaceAll(ReplaceAll(ReplaceAll(ReplaceAll(ReplaceAll(s, '&', "&amp;"), '<', "&lt;"), '>', "&gt;"), '"', "&quot;"), '\'', "&#39;")
  }

  /** `escapeHtml(v)`: `null` and `undefined` give "". */
  function EscapeHtml(v: Option<Json>): string {
    if v.None? || v.value.JNull? then "" else Escape(ToStr(v.value))
  }

  /** The escape of one character. */
  function EscapeChar(c: char): string {
    if c == '&' then "&amp;"
    else if c == '<' then "&lt;"
    else if c == '>' then "&gt;"
    else if c == '"' then "&quot;"
    else if c == '\'' then "&#39;"
    else [c]
  }

  /** Escaping character by character: the reference the chained replacements meet. */
  function EscapeEach(s: string): string {
    if s == [] then [] else EscapeChar(s[0]) + EscapeEach(s[1..])
  }

  lemma EscapeAppend(a: string, b: string)
    ensures Escape(a + b) == Escape(a) + Escape(b)
  {
    var s1a, s1b := ReplaceAll(a, '&', "&amp;"), ReplaceAll(b, '&', "&amp;");
    ReplaceAllAppend(a, b, '&', "&amp;");
    var s2a, s2b := ReplaceAll(s1a, '<', "&lt;"), ReplaceAll(s1b, '<', "&lt;");
    ReplaceAllAppend(s1a, s1b, '<', "&lt;");
    var s3a, s3b := ReplaceAll(s2a, '>', "&gt;"), ReplaceAll(s2b, '>', "&gt;");
    ReplaceAllAppend(s2a, s2b, '>', "&gt;");
    var s4a, s4b := ReplaceAll(s3a, '"', "&quot;"), ReplaceAll(s3b, '"', "&quot;");
    ReplaceAllAppend(s3a, s3b, '"', "&quot;");
    ReplaceAllAppend(s4a, s4b, '\'', "&#39;");
  }

  lemma ReplaceSingle(c: char, x: char, rep: string)
    ensures ReplaceAll([c], x, rep) == if c == x then rep else [c]
  {
    assert [c][1..] == [];
  }

  lemma {:induction false} ReplaceAbsent(s: string, x: char, rep: string)
    requires x !in s
    ensures ReplaceAll(s, x, rep) == s
  {
    if s != [] {
      ReplaceAbsent(s[1..], x, rep);
    }
  }

  /** The rest of the chain after `&`, applied to a string holding none of the later
      targets, changes nothing. */
  lemma LaterStepsAbsent(t: string)
    requires '<' !in t && '>' !in t && '"' !in t && '\'' !in t
    ensures ReplaceAll(ReplaceAll(ReplaceAll(ReplaceAll(t, '<', "&lt;"), '>', "&gt;"), '"', "&quot;"), '\'', "&#39;") == t
  {
    ReplaceAbsent(t, '<', "&lt;");
    ReplaceAbsent(t, '>', "&gt;");
    ReplaceAbsent(t, '"', "&quot;");
    ReplaceAbsent(t, '\'', "&#39;");
  }

  lemma EscapeAmp()
    ensures Escape("&") == "&amp;"
  {
    ReplaceSingle('&', '&', "&amp;");
    LaterStepsAbsent("&amp;");
  }

  lemma EscapeLt()
    ensures Escape("<") == "&lt;"
  {
    var s1 := ReplaceAll("<", '&', "&amp;");
    ReplaceSingle('<', '&', "&amp;");
    var s2 := ReplaceAll(s1, '<', "&lt;");
    ReplaceSingle('<', '<', "&lt;");
    assert s2 == "&lt;";
    LastStepsAbsent(s2);
  }

  /** The last three steps of the chain leave a string without their targets alone. */
  lemma LastStepsAbsent(t: string)
    requires '>' !in t && '"' !in t && '\'' !in t
    ensures ReplaceAll(ReplaceAll(ReplaceAll(t, '>', "&gt;"), '"', "&quot;"), '\'', "&#39;") == t
  {
    ReplaceAbsent(t, '>', "&gt;");
    ReplaceAbsent(t, '"', "&quot;");
    ReplaceAbsent(t, '\'', "&#39;");
  }

  lemma EscapeGt()
    ensures Escape(">") == "&gt;"
  {
    var s1 := ReplaceAll(">", '&', "&amp;");
    ReplaceSingle('>', '&', "&amp;");
    var s2 := ReplaceAll(s1, '<', "&lt;");
    ReplaceSingle('>', '<', "&lt;");
    var s3 := ReplaceAll(s2, '>', "&gt;");
    ReplaceSingle('>', '>', "&gt;");
    assert s3 == "&gt;";
    ReplaceAbsent(s3, '"', "&quot;");
    ReplaceAbsent(s3, '\'', "&#39;");
  }

  lemma EscapeQuot()
    ensures Escape("\"") == "&quot;"
  {
    ReplaceSingle('"', '&', "&amp;");
    ReplaceSingle('"', '<', "&lt;");
    ReplaceSingle('"', '>', "&gt;");
    ReplaceSingle('"', '"', "&quot;");
    ReplaceAbsent("&quot;", '\'', "&#39;");
  }

  lemma EscapeApos()
    ensures Escape("'") == "&#39;"
  {
    ReplaceSingle('\'', '&', "&amp;");
    ReplaceSingle('\'', '<', "&lt;");
    ReplaceSingle('\'', '>', "&gt;");
    ReplaceSingle('\'', '"', "&quot;");
    ReplaceSingle('\'', '\'', "&#39;");
  }

  lemma EscapePlain(c: char)
    requires c != '&' && c != '<' && c != '>' && c != '"' && c != '\''
    ensures Escape([c]) == [c]
  {
    ReplaceSingle(c, '&', "&amp;");
    ReplaceSingle(c, '<', "&lt;");
    ReplaceSingle(c, '>', "&gt;");
    ReplaceSingle(c, '"', "&quot;");
    ReplaceSingle(c, '\'', "&#39;");
  }

  lemma EscapeOne(c: char)
    ensures Escape([c]) == EscapeChar(c)
  {
    if c == '&' {
      EscapeAmp();
    } else if c == '<' {
      EscapeLt();
    } else if c == '>' {
      EscapeGt();
    } else if c == '"' {
      EscapeQuot();
    } else if c == '\'' {
      EscapeApos();
    } else {
      EscapePlain(c);
    }
  }

  /** Because `&` is replaced first, no entity produced by a later replacement is
      escaped again: the chain escapes each character exactly once. */
  lemma {:induction false} EscapeIsEach(s: string)
    ensures Escape(s) == EscapeEach(s)
  {
    if s != [] {
      assert s == [s[0]] + s[1..];
      EscapeAppend([s[0]], s[1..]);
      EscapeOne(s[0]);
      EscapeIsEach(s[1..]);
    }
  }

  /** No raw `<`, `>`, `"` or `'`. */
  predicate NoMarkup(t: string) {
    forall i :: 0 <= i < |t| ==> t[i] != '<' && t[i] != '>' && t[i] != '"' && t[i] != '\''
  }

  predicate EntityAt(t: string, i: nat)
    requires i <= |t|
  {
    var u := t[i..];
    StartsWith(u, "&amp;") || StartsWith(u, "&lt;") || StartsWith(u, "&gt;") || StartsWith(u, "&quot;") || StartsWith(u, "&#39;")
  }

  /** Every `&` begins one of the five entities. */
  predicate AmpsAreEntities(t: string) {
    forall i :: 0 <= i < |t| && t[i] == '&' ==> EntityAt(t, i)
  }

  lemma EntityInPrefix(a: string, b: string, i: nat)
    requires i < |a| && EntityAt(a, i)
    ensures EntityAt(a + b, i)
  {
    assert (a + b)[i..] == a[i..] + b;
  }

  lemma EntityInSuffix(a: string, b: string, i: nat)
    requires i < |b| && EntityAt(b, i)
    ensures EntityAt(a + b, |a| + i)
  {
    assert (a + b)[|a| + i..] == b[i..];
  }

  lemma EscapeCharShape(c: char)
    ensures NoMarkup(EscapeChar(c)) && AmpsAreEntities(EscapeChar(c))
  {
    var e := EscapeChar(c);
    if c == '&' || c == '<' || c == '>' || c == '"' || c == '\'' {
      assert e[0] == '&' && EntityAt(e, 0);
      assert forall i :: 1 <= i < |e| ==> e[i] != '&';
    }
  }

  /** What `escapeHtml` produces has no raw markup character, and each `&` in it starts
      an entity. */
  lemma {:induction false} EscapeShape(s: string)
    ensures NoMarkup(Escape(s)) && AmpsAreEntities(Escape(s))
  {
    EscapeIsEach(s);
    EachShape(s);
  }

  lemma {:induction false} EachShape(s: string)
    ensures NoMarkup(EscapeEach(s)) && AmpsAreEntities(EscapeEach(s))
  {
    if s != [] {
      var a, b := EscapeChar(s[0]), EscapeEach(s[1..]);
      EscapeCharShape(s[0]);
      EachShape(s[1..]);
      assert EscapeEach(s) == a + b;
      forall i | 0 <= i < |a + b| && (a + b)[i] == '&'
        ensures EntityAt(a + b, i)
      {
        if i < |a| {
          EntityInPrefix(a, b, i);
        } else {
          EntityInSuffix(a, b, i - |a|);
        }
      }
    }
  }

  function Count(s: string, c: char): nat {
    if s == [] then 0 else (if s[0] == c then 1 else 0) + Count(s[1..], c)
  }

  /** The length of the escaped text grows by 4 per `&`, 3 per `<` and `>`, 5 per `"`
      and 4 per `'`. */
  lemma {:induction false} EscapeLength(s: string)
    ensures |Escape(s)| == |s| + 4 * Count(s, '&') + 3 * Count(s, '<') + 3 * Count(s, '>')
                             + 5 * Count(s, '"') + 4 * Count(s, '\'')
  {
    EscapeIsEach(s);
    EachLength(s);
  }

  lemma {:induction false} EachLength(s: string)
    ensures |EscapeEach(s)| == |s| + 4 * Count(s, '&') + 3 * Count(s, '<') + 3 * Count(s, '>')
                                 + 5 * Count(s, '"') + 4 * Count(s, '\'')
  {
    if s != [] {
      EachLength(s[1..]);
    }
  }

  /** Decoding the five entities: the inverse of escaping. */
  function Unescape(t: string): string
    decreases |t|
  {
    if t == [] then []
    else if StartsWith(t, "&amp;") then "&" + Unescape(t[5..])
    else if StartsWith(t, "&lt;") then "<" + Unescape(t[4..])
    else if StartsWith(t, "&gt;") then ">" + Unescape(t[4..])
    else if StartsWith(t, "&quot;") then "\"" + Unescape(t[6..])
    else if StartsWith(t, "&#39;") then "'" + Unescape(t[5..])
    else [t[0]] + Unescape(t[1..])
  }

  lemma UnescapeOne(c: char, rest: string)
    ensures Unescape(EscapeChar(c) + rest) == [c] + Unescape(rest)
  {
    var e := EscapeChar(c);
    var t := e + rest;
    assert t[..|e|] == e && t[|e|..] == rest;
    if c == '&' {
      assert StartsWith(t, "&amp;");
    } else if c == '<' {
      assert t[1] == 'l' && !StartsWith(t, "&amp;") && StartsWith(t, "&lt;");
    } else if c == '>' {
      assert t[1] == 'g' && !StartsWith(t, "&amp;") && !StartsWith(t, "&lt;") && StartsWith(t, "&gt;");
    } else if c == '"' {
      assert t[1] == 'q' && !StartsWith(t, "&amp;") && !StartsWith(t, "&lt;") && !StartsWith(t, "&gt;");
      assert StartsWith(t, "&quot;");
    } else if c == '\'' {
      assert t[1] == '#' && !StartsWith(t, "&amp;") && !StartsWith(t, "&lt;") && !StartsWith(t, "&gt;");
      assert !StartsWith(t, "&quot;") && StartsWith(t, "&#39;");
    } else {
      assert t[0] == c && c != '&';
      assert !StartsWith(t, "&amp;") && !StartsWith(t, "&lt;") && !StartsWith(t, "&gt;");
      assert !StartsWith(t, "&quot;") && !StartsWith(t, "&#39;");
      assert t[1..] == rest;
    }
  }

  /** Escaping loses nothing: decoding the escaped text gives the text back. */
  lemma {:induction false} EscapeRoundTrip(s: string)
    ensures Unescape(Escape(s)) == s
  {
    EscapeIsEach(s);
    EachRoundTrip(s);
  }

  lemma {:induction false} EachRoundTrip(s: string)
    ensures Unescape(EscapeEach(s)) == s
  {
    if s != [] {
      EachRoundTrip(s[1..]);
      UnescapeOne(s[0], EscapeEach(s[1..]));
    }
  }

  /** `escapeHtml(null)` and `escapeHtml(undefined)` are "". */
  lemma EscapeHtmlNullish()
    ensures EscapeHtml(None) == "" && EscapeHtml(Some(JNull)) == ""
  {
  }

  // ----- nl2br -----

  /** `nl2br(v)`: the escaped text with each newline replaced by `<br>`. */
  function Nl2br(v: Option<Json>): (r: string)
    ensures '\n' !in r
  {
    ReplaceAll(EscapeHtml(v), '\n', "<br>")
  }

  lemma {:induction false} ReplaceAllLength(s: string, c: char, rep: string)
    ensures |ReplaceAll(s, c, rep)| == |s| + Count(s, c) * (|rep| - 1)
  {
    if s != [] {
      ReplaceAllLength(s[1..], c, rep);
    }
  }

  lemma {:induction false} EachKeepsNewlines(s: string)
    ensures Count(EscapeEach(s), '\n') == Count(s, '\n')
  {
    if s != [] {
      EachKeepsNewlines(s[1..]);
      CountAppend(EscapeChar(s[0]), EscapeEach(s[1..]), '\n');
      CharKeepsNewline(s[0]);
    }
  }

  lemma CharKeepsNewline(c: char)
    ensures Count(EscapeChar(c), '\n') == if c == '\n' then 1 else 0
  {
    var e := EscapeChar(c);
    if e != [c] {
      assert '\n' !in e;
      NoneCounted(e, '\n');
    } else {
      assert e[1..] == [];
    }
  }

  lemma {:induction false} NoneCounted(s: string, c: char)
    requires c !in s
    ensures Count(s, c) == 0
  {
    if s != [] {
      NoneCounted(s[1..], c);
    }
  }

  lemma {:induction false} CountAppend(a: string, b: string, c: char)
    ensures Count(a + b, c) == Count(a, c) + Count(b, c)
  {
    if a != [] {
      assert (a + b)[1..] == a[1..] + b;
      CountAppend(a[1..], b, c);
    } else {
      assert a + b == b;
    }
  }

  /** Escaping keeps the newlines, and each of them becomes the three more characters of
      `<br>`: no newline is left and no other character changes count. */
  lemma Nl2brLength(s: string)
    ensures |Nl2br(Some(JStr(s)))| == |Escape(s)| + 3 * Count(s, '\n')
  {
    EscapeIsEach(s);
    EachKeepsNewlines(s);
    ReplaceAllLength(Escape(s), '\n', "<br>");
  }

  // ----- getEmailForService -----

  /** The recipients configured in the environment; "" is an unset variable. */
  datatype MailEnv = MailEnv(culasse: string, chasse: string, diesel: string, essence: string, arbre: string)

  /** The service table, its keys upper-case. */
  function Mapping(env: MailEnv): map<string, string> {
    map[
      "RECTIFICATION CULASSE" := env.culasse,
      "RECTIFICATION VILEBREQUIN" := env.culasse,
      "RECTIFICATION DES VOLANTS MOTEUR" := env.chasse,
      "REGARNISSAGES MACHOIRES" := env.chasse,
      "CONTR\U{00D4}LE INJECTION DIESEL" := env.diesel,
      "CONTROLE INJECTION DIESEL" := env.diesel,
      "CONTR\U{00D4}LE INJECTION ESSENCE" := env.essence,
      "CONTROLE INJECTION ESSENCE" := env.essence,
      "ARBRE DE TRANSMISSION" := env.arbre]
  }

  /** `String(service || "").trim().toUpperCase()`. */
  function ServiceKey(service: Option<Json>): string {
    Upper(Trim(Text(service)))
  }

  /** `getEmailForService(service)`: the table's address when it is set, else the
      culasse address, else "". */
  function EmailForKey(key: string, env: MailEnv): (r: string)
    ensures key in Mapping(env) && Mapping(env)[key] != "" ==> r == Mapping(env)[key]
    ensures !(key in Mapping(env) && Mapping(env)[key] != "") ==> r == env.culasse
  {
    var m := Mapping(env);
    if key in m && m[key] != "" then m[key] else env.culasse
  }

  function EmailForService(service: Option<Json>, env: MailEnv): string {
    EmailForKey(ServiceKey(service), env)
  }

  /** The recipient is always one of the configured addresses, or "" when none is. */
  lemma RecipientIsConfigured(service: Option<Json>, env: MailEnv)
    ensures var r := EmailForService(service, env);
      r in {env.culasse, env.chasse, env.diesel, env.essence, env.arbre}
      && (r == "" <==> env.culasse == "" && !(ServiceKey(service) in Mapping(env) && Mapping(env)[ServiceKey(service)] != ""))
  {
    var m := Mapping(env);
    assert forall k :: k in m ==> m[k] in {env.culasse, env.chasse, env.diesel, env.essence, env.arbre};
  }

  /** Case and surrounding white space do not matter: a service name reaches the same
      address as its trimmed lower-case and its trimmed upper-case spelling. */
  lemma LookupIgnoresCaseAndSpace(s: string, env: MailEnv)
    ensures EmailForService(Some(JStr(s)), env) == EmailForService(Some(JStr(Lower(Trim(s)))), env)
    ensures EmailForService(Some(JStr(s)), env) == EmailForService(Some(JStr(Upper(Trim(s)))), env)
  {
    KeyIgnoresCaseAndSpace(s);
  }

  lemma KeyIgnoresCaseAndSpace(s: string)
    ensures ServiceKey(Some(JStr(s))) == ServiceKey(Some(JStr(Lower(Trim(s)))))
    ensures ServiceKey(Some(JStr(s))) == ServiceKey(Some(JStr(Upper(Trim(s)))))
  {
    var t := Trim(s);
    KeyOfString(s);
    KeyOfString(Lower(t));
    KeyOfString(Upper(t));
    CaseAndTrim(t);
  }

  lemma KeyOfString(x: string)
    ensures ServiceKey(Some(JStr(x))) == Upper(Trim(x))
  {
    var v := Some(JStr(x));
    assert Text(v) == x;
  }

  lemma CaseAndTrim(t: string)
    requires t == [] || (!IsSpace(t[0]) && !IsSpace(t[|t| - 1]))
    ensures Upper(Trim(Lower(t))) == Upper(t) && Upper(Trim(Upper(t))) == Upper(t)
  {
    CaseKeepsTrim(t);
    UpperOfLower(t);
    UpperTwice(t);
  }

  lemma UpperTwice(t: string)
    ensures Upper(Upper(t)) == Upper(t)
  {
  }

  /** A string with no white space at either end keeps that under case mapping. */
  lemma CaseKeepsTrim(t: string)
    requires t == [] || (!IsSpace(t[0]) && !IsSpace(t[|t| - 1]))
    ensures Trim(Lower(t)) == Lower(t) && Trim(Upper(t)) == Upper(t)
  {
    if t != [] {
      CaseKeepsSpace(t[0]);
      CaseKeepsSpace(t[|t| - 1]);
    }
    TrimUntouched(Lower(t));
    TrimUntouched(Upper(t));
  }

  /** The two spellings of each injection service, with and without the circumflex,
      reach the same address. */
  lemma InjectionSpellingsAgree(env: MailEnv)
    ensures EmailForKey("CONTR\U{00D4}LE INJECTION DIESEL", env) == EmailForKey("CONTROLE INJECTION DIESEL", env)
    ensures EmailForKey("CONTR\U{00D4}LE INJECTION ESSENCE", env) == EmailForKey("CONTROLE INJECTION ESSENCE", env)
  {
  }

  /** An unknown service, or a known one whose address is unset, falls back to the
      culasse address ("" when that is unset too). */
  lemma UnknownServiceFallsBack(service: Option<Json>, env: MailEnv)
    requires ServiceKey(service) !in Mapping(env)
    ensures EmailForService(service, env) == env.culasse
  {
  }

  // ----- the guards before sending -----

  /** What a sending function does: return `{ sent: false, reason }` (at once, or from
      its `catch` around `sendMail`), hand the mail to `sendMail` for `to` with the
      dossier number `no`, or throw before its `try`. */
  datatype Sending = NotSent(reason: string) | Send(to: string, no: string) | Thrown

  const NoSmtp: string := "SMTP non configuré"
  const NoRecipient: string := "Email non configuré"
  const NoClientEmail: string := "Email client non renseigné"

  /** The message of the TypeError that `String(v)` throws on a value with no usable
      `toString` (see `StrThrows`). */
  const ConvertError: string := "Cannot convert object to primitive value"

  /** `(caseData.snapshot && caseData.snapshot.header) || {}`. */
  function Header(caseData: Json): (r: Json)
    requires !caseData.JNull?
    ensures !r.JNull?
  {
    var snapshot := Field(caseData, "snapshot");
    var header := if Truthy(snapshot) then Field(snapshot.value, "header") else snapshot;
    if Truthy(header) then header.value else JObj(map[])
  }

  /** `(caseData && caseData.snapshot) || {}`. */
  function Snapshot(caseData: Json): (r: Json)
    requires !caseData.JNull?
    ensures !r.JNull?
  {
    var snapshot := Field(caseData, "snapshot");
    if Truthy(snapshot) then snapshot.value else JObj(map[])
  }

  /** `a || b`. */
  function Either(a: Option<Json>, b: Option<Json>): Option<Json> {
    if Truthy(a) then a else b
  }

  /** `Array.isArray(v) ? v : []`. */
  function ItemsOf(v: Option<Json>): seq<Json> {
    if v.Some? && v.value.JArr? then v.value.items else []
  }

  /** `String(caseData.no || "").padStart(5, "0")`. */
  function DossierNo(caseData: Json): string
    requires !caseData.JNull?
  {
    PadStart(Text(Field(caseData, "no")), 5, '0')
  }

  /** `caseData.service || header.service || ""`, before its `|| ""`. */
  function RequestService(caseData: Json): Option<Json>
    requires !caseData.JNull?
  {
    Either(Field(caseData, "service"), Field(Header(caseData), "service"))
  }

  /** The recipient of `sendNewRequestEmail`: the address of the service. */
  function RequestRecipient(caseData: Json, env: MailEnv): string
    requires !caseData.JNull?
  {
    EmailForService(RequestService(caseData), env)
  }

  /** Building the line of one reference of a culasse operation throws: it is `null`, or
      its `prixHT`, `libelleRef` or `reference` is converted and throws. */
  predicate ReferenceThrows(r: Json) {
    r.JNull? || TextThrows(Field(r, "prixHT")) || TextThrows(Field(r, "libelleRef")) ||
    TextThrows(Field(r, "reference"))
  }

  /** Building the item of one culasse operation throws: it is `null`, or one of its
      references throws, or `op.libelle || op.ligne` throws. */
  predicate OperationThrows(op: Json) {
    op.JNull? ||
    (var refs := ItemsOf(Field(op, "references"));
     exists i :: 0 <= i < |refs| && ReferenceThrows(refs[i])) ||
    TextThrows(Either(Field(op, "libelle"), Field(op, "ligne")))
  }

  /** Building the "Rectification Culasse" section from a truthy `culasse` throws. */
  predicate CulasseThrows(culasse: Json)
    requires !culasse.JNull?
  {
    var ops := ItemsOf(Field(culasse, "operations"));
    var pieces := ItemsOf(Field(culasse, "piecesAFournir"));
    (exists i :: 0 <= i < |ops| && OperationThrows(ops[i])) ||
    (exists i :: 0 <= i < |pieces| && StrThrows(pieces[i])) ||
    TextThrows(Field(culasse, "segment")) || TextThrows(Field(culasse, "cylindre")) ||
    TextThrows(Field(culasse, "soupapes")) || TextThrows(Field(culasse, "carburant"))
  }

  /** The services that get the injection section. */
  predicate IsInjection(service: Option<Json>) {
    service == Some(JStr("Contr\U{00F4}le injection Diesel")) || service == Some(JStr("Contr\U{00F4}le injection Essence"))
  }

  /** What `sendNewRequestEmail` computes after the recipient check and before its `try`
      throws: `String(caseData.no)`, `new Date(dateDemande)`, `.trim()` on comments that
      are not a string, or a detail section. */
  predicate RequestBuildThrows(caseData: Json)
    requires !caseData.JNull?
  {
    var service := RequestService(caseData);
    var snapshot := Snapshot(caseData);
    var comments := Field(snapshot, "commentaires");
    var culasse := Field(snapshot, "culasse");
    var injecteur := Field(snapshot, "injecteur");
    TextThrows(Field(caseData, "no")) ||
    TextThrows(Either(Field(caseData, "demandeDate"), Field(Header(caseData), "dateDemande"))) ||
    (Truthy(comments) && !comments.value.JStr?) ||
    (service == Some(JStr("Rectification Culasse")) && Truthy(culasse) && CulasseThrows(culasse.value)) ||
    (IsInjection(service) && Truthy(injecteur) &&
      (TextThrows(Field(injecteur.value, "type")) || TextThrows(Field(injecteur.value, "nombre"))))
  }

  /** Escaping the client, the store or a header field inside the `try` throws, which
      its `catch` turns into `{ sent: false, reason: error.message }`. */
  predicate RequestFieldsThrow(caseData: Json)
    requires !caseData.JNull?
  {
    var header := Header(caseData);
    TextThrows(Either(Field(caseData, "client"), Field(header, "client"))) ||
    TextThrows(Either(Field(caseData, "magasin"), Field(header, "magasin"))) ||
    TextThrows(Field(header, "compte")) || TextThrows(Field(header, "telephone")) ||
    TextThrows(Field(header, "email")) || TextThrows(Field(header, "vehicule")) ||
    TextThrows(Field(header, "immat"))
  }

  /** The checks of `sendNewRequestEmail`. */
  function NewRequest(hasTransporter: bool, caseData: Json, env: MailEnv): Sending {
    if !hasTransporter then NotSent(NoSmtp)
    else if caseData.JNull? then Thrown
    else if TextThrows(RequestService(caseData)) then Thrown
    else
      var to := RequestRecipient(caseData, env);
      if to == "" then NotSent(NoRecipient)
      else if RequestBuildThrows(caseData) then Thrown
      else if RequestFieldsThrow(caseData) then NotSent(ConvertError)
      else Send(to, DossierNo(caseData))
  }

  /** Escaping the service, the client or the store inside the `try` of
      `sendPieceReturnedEmail` throws. */
  predicate PieceFieldsThrow(caseData: Json)
    requires !caseData.JNull?
  {
    var header := Header(caseData);
    TextThrows(Either(Field(caseData, "service"), Field(header, "service"))) ||
    TextThrows(Either(Field(caseData, "client"), Field(header, "client"))) ||
    TextThrows(Either(Field(caseData, "magasin"), Field(header, "magasin")))
  }

  /** The checks of `sendPieceReturnedEmail`: the client's address is `header.email`.
      Both the warning without one (`${caseData.no}`) and the dossier number convert
      `caseData.no`. */
  function PieceReturned(hasTransporter: bool, caseData: Json): Sending {
    if !hasTransporter then NotSent(NoSmtp)
    else if caseData.JNull? then Thrown
    else
      var email := Field(Header(caseData), "email");
      if TextThrows(Field(caseData, "no")) then Thrown
      else if !Truthy(email) then NotSent(NoClientEmail)
      else if PieceFieldsThrow(caseData) then NotSent(ConvertError)
      else Send(Text(email), DossierNo(caseData))
  }

  /** The dossier number is left-padded with zeros to at least five characters and is
      never cut. */
  lemma DossierNoPadded(caseData: Json)
    requires !caseData.JNull?
    ensures var t := Text(Field(caseData, "no"));
      var no := DossierNo(caseData);
      |no| >= 5 && |no| >= |t| && no[|no| - |t|..] == t
      && forall i :: 0 <= i < |no| - |t| ==> no[i] == '0'
  {
  }

  /** Without a transporter nothing is read. With one, the mail is handed to `sendMail`
      exactly when the case is not `null`, its service converts and resolves to an
      address, and nothing built from the case throws, and then to that address. It
      throws exactly on a `null` case, a service that does not convert, or, once an
      address is found, a conversion before the `try`; a conversion inside it is
      reported as not sent. */
  lemma NewRequestGuards(hasTransporter: bool, caseData: Json, env: MailEnv)
    ensures var r := NewRequest(hasTransporter, caseData, env);
      && (!hasTransporter ==> r == NotSent(NoSmtp))
      && (r == Thrown <==>
            (hasTransporter &&
             (caseData.JNull? || TextThrows(RequestService(caseData)) ||
              (RequestRecipient(caseData, env) != "" && RequestBuildThrows(caseData)))))
      && (!caseData.JNull? ==>
            (r.Send? <==> hasTransporter && !TextThrows(RequestService(caseData)) && RequestRecipient(caseData, env) != ""
                          && !RequestBuildThrows(caseData) && !RequestFieldsThrow(caseData)))
      && (!caseData.JNull? && hasTransporter && !TextThrows(RequestService(caseData)) ==>
            (r == NotSent(NoRecipient) <==> RequestRecipient(caseData, env) == ""))
      && (r.Send? ==> !caseData.JNull? && r.to == RequestRecipient(caseData, env) && r.no == DossierNo(caseData))
  {
  }

  /** Without a transporter nothing is read. With one, a returned piece is announced
      exactly when the case is not `null`, its number converts, the client has a truthy
      address and the escaped fields convert, and then to that address. */
  lemma PieceReturnedGuards(hasTransporter: bool, caseData: Json)
    ensures var r := PieceReturned(hasTransporter, caseData);
      && (!hasTransporter ==> r == NotSent(NoSmtp))
      && (r == Thrown <==> hasTransporter && (caseData.JNull? || TextThrows(Field(caseData, "no"))))
      && (!caseData.JNull? ==>
            (r.Send? <==> hasTransporter && !TextThrows(Field(caseData, "no")) &&
                          Truthy(Field(Header(caseData), "email")) && !PieceFieldsThrow(caseData)))
      && (!caseData.JNull? && hasTransporter && !TextThrows(Field(caseData, "no")) && !Truthy(Field(Header(caseData), "email")) ==>
            r == NotSent(NoClientEmail))
      && (r.Send? ==> !caseData.JNull? && r.to == Text(Field(Header(caseData), "email")) && r.no == DossierNo(caseData))
  {
  }
}
