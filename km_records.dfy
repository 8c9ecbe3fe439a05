/**
 * The records of the mileage store and what `/save` and `/absent` make of a
 * request body (routes/kilometrage.js): the checks that reject a request before
 * any storage access, and the record that is then appended. The clock's
 * `toISOString()` is the parameter `now`.
 */
module KmRecords {
  import opened Optional
  import opened JsText
  import opened JsonValue

  /** `(req.body || {})[name]`: `None` is `undefined`. */
  function Prop(body: Json, name: string): (r: Option<Json>)
    ensures !Truthy(Some(body)) ==> r == None
  {
    if Truthy(Some(body)) then Field(body, name) else None
  }

  /** `Number(v)`, restricted to integers, for a `v` on which it does not throw (see
      `TextThrows`): `None` is NaN. `undefined` and the other objects are NaN, `null` and `false` are 0, `true` is 1, and anything else goes through its
      text (so "" and `[]` are 0). */
  function NumberOf(v: Option<Json>): Option<int> {
    match v
    case None => None
    case Some(JNull) => Some(0)
    case Some(JBool(b)) => Some(if b then 1 else 0)
    case Some(JNum(n)) => Some(n)
    case Some(j) => ToNumber(ToStr(j))
  }

  /** One entry of a monthly file. `id` and `horaire` are `None` when the stored value
      is `null`, `km` likewise. */
  datatype KmRecord = KmRecord(
    kind: string,
    id: Option<string>,
    agence: string,
    codeAgence: string,
    tournee: string,
    codeTournee: string,
    chauffeur: string,
    codeChauffeur: string,
    date: string,
    km: Option<int>,
    horaire: Option<string>,
    commentaire: string,
    note: string,
    createdAt: string)

  function OptStr(s: Option<string>): Json {
    match s
    case Some(t) => JStr(t)
    case None => JNull
  }

  function OptNum(n: Option<int>): Json {
    match n
    case Some(k) => JNum(k)
    case None => JNull
  }

  /** The object that is pushed into the monthly array. */
  function ToJson(r: KmRecord): Json {
    JObj(map[
      "type" := JStr(r.kind), "id" := OptStr(r.id), "agence" := JStr(r.agence),
      "codeAgence" := JStr(r.codeAgence), "tournee" := JStr(r.tournee),
      "codeTournee" := JStr(r.codeTournee), "chauffeur" := JStr(r.chauffeur),
      "codeChauffeur" := JStr(r.codeChauffeur), "date" := JStr(r.date),
      "km" := OptNum(r.km), "horaire" := OptStr(r.horaire),
      "commentaire" := JStr(r.commentaire), "note" := JStr(r.note),
      "createdAt" := JStr(r.createdAt)])
  }

  /** A request either answers 400 with a message, or throws while its record is built
      (a conversion inside the handler's `try`, answered 500), or yields the record to
      append. */
  datatype Checked = Rejected(error: string) | Threw | Accepted(record: KmRecord)

  const SaveMissing: string := "Champs obligatoires manquants (agence, date)"
  const SaveBadKm: string := "Valeur km invalide"
  const AbsentMissing: string := "Champs obligatoires manquants (agence, codeTournee, date)"

  /** The body properties `/save` converts with `String(...)` while building its record
      (`id` only when it is neither `undefined` nor `null`, which never throw). */
  const SaveTexts: seq<string> :=
    ["id", "agence", "codeAgence", "tournee", "codeTournee", "chauffeur", "codeChauffeur", "date", "horaire", "commentaire"]

  /** The body properties `/absent` converts while building its record. */
  const AbsentTexts: seq<string> :=
    ["agence", "codeAgence", "tournee", "codeTournee", "chauffeur", "codeChauffeur", "date", "note"]

  /** Converting one of the properties `names` of the body throws. */
  predicate AnyThrows(body: Json, names: seq<string>) {
    exists i :: 0 <= i < |names| && TextThrows(Prop(body, names[i]))
  }

  /** `String(a || b || "")`. */
  function TextOr(a: Option<Json>, b: Option<Json>): string {
    if Truthy(a) then ToStr(a.value) else Text(b)
  }

  /** The stored `id` of a reading: `null` when the body's `id` is `undefined`, `null`
      or blank, else `String(id).trim()`. */
  function SaveId(v: Option<Json>): (r: Option<string>)
    ensures r.Some? ==> r.value != "" && Trim(r.value) == r.value
    ensures v.None? || v == Some(JNull) ==> r.None?
  {
    match v
    case None => None
    case Some(JNull) => None
    case Some(j) =>
      var t := Trim(ToStr(j));
      TrimIdempotent(ToStr(j));
      if t == "" then None else Some(t)
  }

  /** The checks and the record of `POST /save`. */
  function CheckSave(body: Json, now: string): Checked {
    var agence := Prop(body, "agence");
    var date := Prop(body, "date");
    if !Truthy(agence) || !Truthy(date) then Rejected(SaveMissing)
    else if TextThrows(Prop(body, "km")) then Threw
    else
      var km := NumberOf(Prop(body, "km"));
      if km.None? || km.value < 0 then Rejected(SaveBadKm)
      else if AnyThrows(body, SaveTexts) then Threw
      else Accepted(SaveRecord(body, now, km.value))
  }

  /** The checks and the record of `POST /absent`. */
  function CheckAbsent(body: Json, now: string): Checked {
    var agence := Prop(body, "agence");
    var codeTournee := Prop(body, "codeTournee");
    var date := Prop(body, "date");
    if !Truthy(agence) || !Truthy(codeTournee) || !Truthy(date) then Rejected(AbsentMissing)
    else if AnyThrows(body, AbsentTexts) then Threw
    else
      Accepted(KmRecord(
        "absence",
        None,
        Text(agence),
        TextOr(Prop(body, "codeAgence"), agence),
        Text(Prop(body, "tournee")),
        Text(codeTournee),
        Text(Prop(body, "chauffeur")),
        Text(Prop(body, "codeChauffeur")),
        Take(ToStr(date.value), 10),
        None,
        None,
        "",
        Text(Prop(body, "note")),
        now))
  }

  /** `/save` rejects exactly the bodies without a truthy `agence` or `date` (first) and
      those whose `km` converts, without throwing, to NaN or a negative number. It throws
      (500) exactly when the checks on `agence` and `date` pass and then `Number(km)`
      throws, or `km` is valid and converting a property of the record throws. */
  lemma SaveRejects(body: Json, now: string)
    ensures var km := Prop(body, "km");
      CheckSave(body, now).Rejected? <==>
        (!Truthy(Prop(body, "agence")) || !Truthy(Prop(body, "date")) ||
         (!TextThrows(km) && (NumberOf(km).None? || NumberOf(km).value < 0)))
    ensures var km := Prop(body, "km");
      CheckSave(body, now).Threw? <==>
        (Truthy(Prop(body, "agence")) && Truthy(Prop(body, "date")) &&
         (TextThrows(km) || (NumberOf(km).Some? && NumberOf(km).value >= 0 && AnyThrows(body, SaveTexts))))
    ensures !Truthy(Prop(body, "agence")) || !Truthy(Prop(body, "date")) ==>
      CheckSave(body, now) == Rejected(SaveMissing)
    ensures CheckSave(body, now).Accepted? ==> !TextThrows(Prop(body, "km")) && !AnyThrows(body, SaveTexts)
  {
  }

  /** What `/save` stores: a reading whose `km` is the non-negative number given, whose
      `horaire` is lower-case and trimmed, whose `id` is `null` or trimmed and non-blank,
      and whose `date` is at most the first ten characters of the given date. */
  lemma SaveRecordShape(body: Json, now: string)
    requires CheckSave(body, now).Accepted?
    ensures var r := CheckSave(body, now).record;
      && r.kind == "releve"
      && r.km == NumberOf(Prop(body, "km")) && r.km.Some? && r.km.value >= 0
      && r.horaire.Some? && Lower(r.horaire.value) == r.horaire.value && Trim(r.horaire.value) == r.horaire.value
      && (r.id.Some? ==> r.id.value != "" && Trim(r.id.value) == r.id.value)
      && |r.date| <= 10 && StartsWith(ToStr(Prop(body, "date").value), r.date)
      && r.note == "" && r.createdAt == now
  {
    var r := CheckSave(body, now).record;
    var h := Text(Prop(body, "horaire"));
    var d := ToStr(Prop(body, "date").value);
    assert r == SaveRecord(body, now, r.km.value);
    SaveRecordFields(body, now, r.km.value, h, d);
  }

  /** The record `/save` builds once its checks passed, for the number `km`. */
  function SaveRecord(body: Json, now: string, km: int): KmRecord {
    var agence := Prop(body, "agence");
    KmRecord(
      "releve",
      SaveId(Prop(body, "id")),
      Text(agence),
      TextOr(Prop(body, "codeAgence"), agence),
      Text(Prop(body, "tournee")),
      Text(Prop(body, "codeTournee")),
      Text(Prop(body, "chauffeur")),
      Text(Prop(body, "codeChauffeur")),
      Take(ToStr(Prop(body, "date").GetOr(JNull)), 10),
      Some(km),
      Some(Trim(Lower(Text(Prop(body, "horaire"))))),
      Text(Prop(body, "commentaire")),
      "",
      now)
  }

  lemma SaveRecordFields(body: Json, now: string, km: int, h: string, d: string)
    requires h == Text(Prop(body, "horaire")) && d == ToStr(Prop(body, "date").GetOr(JNull))
    ensures var r := SaveRecord(body, now, km);
      && r.horaire.Some? && Lower(r.horaire.value) == r.horaire.value && Trim(r.horaire.value) == r.horaire.value
      && |r.date| <= 10 && StartsWith(d, r.date)
  {
    var r := SaveRecord(body, now, km);
    assert r.horaire == Some(Trim(Lower(h)));
    assert r.date == Take(d, 10);
    LowerThenTrim(h);
    TakeIsPrefix(d, 10);
  }

  lemma TakeIsPrefix(d: string, n: nat)
    ensures |Take(d, n)| <= n && StartsWith(d, Take(d, n))
  {
  }

  /** `/absent` rejects exactly the bodies without a truthy `agence`, `codeTournee` or
      `date`, and otherwise throws (500) exactly when converting a property of its record
      throws; what it stores is an absence with neither `km` nor `horaire`. */
  lemma AbsentRejects(body: Json, now: string)
    ensures CheckAbsent(body, now).Rejected? <==>
      (!Truthy(Prop(body, "agence")) || !Truthy(Prop(body, "codeTournee")) || !Truthy(Prop(body, "date")))
    ensures CheckAbsent(body, now).Rejected? ==> CheckAbsent(body, now).error == AbsentMissing
    ensures CheckAbsent(body, now).Threw? <==> !CheckAbsent(body, now).Rejected? && AnyThrows(body, AbsentTexts)
  {
  }

  lemma AbsentRecordShape(body: Json, now: string)
    requires CheckAbsent(body, now).Accepted?
    ensures var r := CheckAbsent(body, now).record;
      && r.kind == "absence" && r.id.None? && r.km.None? && r.horaire.None?
      && r.commentaire == "" && |r.date| <= 10 && StartsWith(ToStr(Prop(body, "date").value), r.date)
      && r.codeTournee == ToStr(Prop(body, "codeTournee").value) && r.createdAt == now
  {
  }
}
