/**
 * The tour registry `params.json` of routes/kilometrage.js: the rows a
 * `GET /params?agence=` answers, and the transform `POST /newid` hands to
 * `updateParams` (next QR-code id of a tour, replacement time stamped on the
 * tour's active rows, new row appended). Rows are whatever JSON the file holds;
 * reading a property of a `null` row, or converting a property that holds an
 * object with its own `toString` (see `StrThrows`), throws a TypeError, which
 * both handlers turn into a 500 answer.
 */
module KmRegistry {
  import opened Optional
  import opened JsText
  import opened JsonValue
  import opened SeqFilter

  /** The error the handlers' TypeErrors are known by here; which of them a filter
      meets first only changes the logged message. */
  const TypeErrorName: string := "TypeError"

  predicate NoNullRow(rows: seq<Json>) {
    forall i :: 0 <= i < |rows| ==> !rows[i].JNull?
  }

  /** `String(p.name || "")` for a row that is not `null`. */
  function RowText(p: Json, name: string): string
    requires !p.JNull?
  {
    Text(Field(p, name))
  }

  /** The row names the agency `ag` (already lower-cased) by display name or by code. */
  predicate OfAgency(p: Json, ag: string) {
    !p.JNull? && (Lower(RowText(p, "agence")) == ag || Lower(RowText(p, "codeAgence")) == ag)
  }

  /** The row belongs to the tour whose trimmed code is `code`. */
  predicate OfTour(p: Json, code: string) {
    !p.JNull? && Trim(RowText(p, "codeTournee")) == code
  }

  /** The agency test of `/params`, of `sameCode.find` and of `params.map` throws on the
      row `p`: `p` is `null`, or its `agence` throws, or that does not match and its
      `codeAgence` throws (`||` stops at a match). */
  predicate AgencyTestThrows(p: Json, ag: string) {
    p.JNull? || TextThrows(Field(p, "agence")) ||
    (Lower(RowText(p, "agence")) != ag && TextThrows(Field(p, "codeAgence")))
  }

  /** Filtering the rows for the agency `ag` throws on one of them. */
  predicate AgencyFilterThrows(rows: seq<Json>, ag: string) {
    exists i :: 0 <= i < |rows| && AgencyTestThrows(rows[i], ag)
  }

  /** The predicates the handlers filter with, as values. */
  function InAgency(ag: string): Json -> bool {
    p => OfAgency(p, ag)
  }

  function InTour(code: string): Json -> bool {
    p => OfTour(p, code)
  }

  /** `GET /params`: every row when the trimmed `agence` query is empty, else the rows
      whose `agence` or `codeAgence` equals it, ignoring case. */
  function ParamsForAgency(all: seq<Json>, agenceRaw: string): Result<seq<Json>> {
    if agenceRaw == "" then Ok(all)
    else if AgencyFilterThrows(all, Lower(agenceRaw)) then Err(TypeErrorName)
    else Ok(Filter(all, InAgency(Lower(agenceRaw))))
  }

  /** `/params` answers, in file order, exactly the rows of the agency, each as often as
      the file holds it; without a filter it answers every row, `null` rows included.
      With a filter it fails exactly when the filter throws on a row, so always on a
      `null` row. */
  lemma ParamsAnswer(all: seq<Json>, agenceRaw: string, p: Json)
    ensures agenceRaw == "" ==> ParamsForAgency(all, agenceRaw) == Ok(all)
    ensures ParamsForAgency(all, agenceRaw).Err? <==> agenceRaw != "" && AgencyFilterThrows(all, Lower(agenceRaw))
    ensures agenceRaw != "" && !NoNullRow(all) ==> ParamsForAgency(all, agenceRaw).Err?
    ensures ParamsForAgency(all, agenceRaw).Ok? ==>
      && IsSubsequence(ParamsForAgency(all, agenceRaw).value, all)
      && (p in ParamsForAgency(all, agenceRaw).value <==> p in all && (agenceRaw == "" || OfAgency(p, Lower(agenceRaw))))
      && multiset(ParamsForAgency(all, agenceRaw).value)[p]
           == if agenceRaw == "" || OfAgency(p, Lower(agenceRaw)) then multiset(all)[p] else 0
  {
    if agenceRaw != "" && !AgencyFilterThrows(all, Lower(agenceRaw)) {
      assert NoNullRow(all);
      FilterIsSubsequence(all, InAgency(Lower(agenceRaw)));
      FilterMembers(all, InAgency(Lower(agenceRaw)), p);
      FilterCount(all, InAgency(Lower(agenceRaw)), p);
    } else if agenceRaw == "" {
      SubsequenceOfSelf(all);
    }
  }

  lemma {:induction false} SubsequenceOfSelf(s: seq<Json>)
    ensures IsSubsequence(s, s)
  {
    if s != [] {
      SubsequenceOfSelf(s[1..]);
    }
  }

  /** `s.split("-").pop()`: what follows the last "-", or all of `s` without one. */
  function LastSegment(s: string): (r: string)
    ensures '-' !in r
    ensures |r| <= |s| && r == s[|s| - |r|..]
  {
    if s == [] || s[|s| - 1] == '-' then [] else LastSegment(s[..|s| - 1]) + [s[|s| - 1]]
  }

  lemma LastSegmentAfterDash(a: string, b: string)
    requires '-' !in b
    ensures LastSegment(a + "-" + b) == b
  {
    var p := a + "-";
    assert p[|p| - 1] == '-';
    SegmentAfter(p, b);
  }

  /** The last segment after a prefix ending in a dash is what follows it. */
  lemma {:induction false} SegmentAfter(p: string, b: string)
    requires |p| > 0 && p[|p| - 1] == '-' && '-' !in b
    ensures LastSegment(p + b) == b
    decreases |b|
  {
    if |b| == 0 {
      assert p + b == p;
    } else {
      var init := b[..|b| - 1];
      var last := b[|b| - 1];
      assert b == init + [last];
      assert last in b;
      SegmentAfter(p, init);
      assert p + b == (p + init) + [last];
      LastSegmentSnoc(p + init, last);
    }
  }

  lemma LastSegmentSnoc(x: string, c: char)
    requires c != '-'
    ensures LastSegment(x + [c]) == LastSegment(x) + [c]
  {
    var y := x + [c];
    assert y[..|y| - 1] == x;
  }

  /** `parseInt(String(p.id || "").split("-").pop(), 10)` */
  function SeqOf(p: Json): Option<int>
    requires !p.JNull?
  {
    ParseInt(LastSegment(RowText(p, "id")))
  }

  /** The sequence numbers of the rows, in order. */
  function Seqs(rows: seq<Json>): (r: seq<Option<int>>)
    requires NoNullRow(rows)
    ensures |r| == |rows| && forall i :: 0 <= i < |rows| ==> r[i] == SeqOf(rows[i])
  {
    seq(|rows|, i requires 0 <= i < |rows| => SeqOf(rows[i]))
  }

  /** The largest number among `nums` that is above 0, else 0 (NaN never wins). */
  function MaxOf(nums: seq<Option<int>>): (m: nat)
    ensures forall i :: 0 <= i < |nums| && nums[i].Some? ==> nums[i].value <= m
    ensures m == 0 || exists i :: 0 <= i < |nums| && nums[i] == Some(m)
  {
    if nums == [] then 0
    else
      var init := nums[..|nums| - 1];
      var m := MaxOf(init);
      var s := nums[|nums| - 1];
      assert forall i :: 0 <= i < |init| ==> init[i] == nums[i];
      if s.Some? && s.value > m then s.value else m
  }

  /** `maxSeq` after the loop of `/newid` over the tour's rows. */
  function MaxSeq(rows: seq<Json>): nat
    requires NoNullRow(rows)
  {
    MaxOf(Seqs(rows))
  }

  /** The id `/newid` hands out: the tour code, "-", then `maxSeq + 1` on at least three
      digits. */
  function NewId(code: string, maxSeq: nat): string {
    code + "-" + PadStart(Dec(maxSeq + 1), 3, '0')
  }

  /** The sequence number of a handed-out id reads back as `maxSeq + 1`. */
  lemma NewIdSeq(code: string, maxSeq: nat)
    ensures ParseInt(LastSegment(NewId(code, maxSeq))) == Some(maxSeq + 1)
  {
    var digits := PadStart(Dec(maxSeq + 1), 3, '0');
    assert '-' !in digits by {
      assert AllDigits(Repeat('0', |digits| - |Dec(maxSeq + 1)|) + Dec(maxSeq + 1)) by {
        LeadingZerosValue(|digits| - |Dec(maxSeq + 1)|, Dec(maxSeq + 1));
      }
    }
    LastSegmentAfterDash(code, digits);
    ParseIntPadded(maxSeq + 1, 3);
  }

  /** The handed-out id differs from the id of every row of the tour: its sequence
      number is above all of theirs. */
  lemma NewIdFresh(same: seq<Json>, code: string)
    requires NoNullRow(same)
    ensures forall i :: 0 <= i < |same| ==> RowText(same[i], "id") != NewId(code, MaxSeq(same))
  {
    var nums := Seqs(same);
    NewIdSeq(code, MaxOf(nums));
  }

  /** `{...p}`: the own enumerable properties of a row. */
  function Spread(p: Json): map<string, Json> {
    match p
    case JObj(m) => m
    case _ => map[]
  }

  /** `{ ...p, dernierRemplacement: now }` */
  function Stamp(p: Json, now: string): Json {
    JObj(Spread(p)["dernierRemplacement" := JStr(now)])
  }

  /** The rows `params.map(...)` leaves: the tour's rows of the agency stamped, the
      others as they were. */
  function StampRows(rows: seq<Json>, code: string, ag: string, now: string): (r: seq<Json>)
    ensures |r| == |rows|
    ensures forall i :: 0 <= i < |rows| ==>
      r[i] == if OfTour(rows[i], code) && OfAgency(rows[i], ag) then Stamp(rows[i], now) else rows[i]
  {
    seq(|rows|, i requires 0 <= i < |rows| =>
      if OfTour(rows[i], code) && OfAgency(rows[i], ag) then Stamp(rows[i], now) else rows[i])
  }

  /** `a || b` */
  function Or(a: Option<Json>, b: Json): Json {
    if Truthy(a) then a.value else b
  }

  /** `ref`: the tour's first row of the agency, else the tour's first row, else `{}`
      (a falsy row counts as none). */
  function Reference(same: seq<Json>, ag: string): Json {
    var found := Filter(same, InAgency(ag));
    if found != [] && Truthy(Some(found[0])) then found[0]
    else if same != [] && Truthy(Some(same[0])) then same[0]
    else JObj(map[])
  }

  /** A property of `ref`; `ref` is never `null`. */
  function RefProp(r: Json, name: string): Option<Json> {
    if r.JNull? then None else Field(r, name)
  }

  /** The row `/newid` appends, its driver left to fill in. */
  function NewRow(r: Json, agence: Json, code: string, id: string): Json {
    JObj(map[
      "agence" := Or(RefProp(r, "agence"), agence),
      "codeAgence" := Or(RefProp(r, "codeAgence"), agence),
      "tournee" := Or(RefProp(r, "tournee"), JStr("")),
      "codeTournee" := JStr(code),
      "transporteur" := JStr(""),
      "codeTransporteur" := JStr(""),
      "id" := JStr(id),
      "dernierRemplacement" := JNull])
  }

  datatype NewIdResult = NewIdResult(rows: seq<Json>, id: string)

  /** The tour's rows, for the trimmed tour code. */
  function TourRows(params: seq<Json>, code: string): seq<Json> {
    Filter(params, InTour(code))
  }

  /** A row on which the updater of `/newid` throws, for the trimmed tour code `code`
      and the lower-cased agency `ag`: the `filter` converts every row's `codeTournee`;
      the loop converts the `id` of the tour's rows, and `find` and `map` apply the
      agency test to them. */
  predicate NewIdRowThrows(p: Json, code: string, ag: string) {
    p.JNull? || TextThrows(Field(p, "codeTournee")) ||
    (Trim(RowText(p, "codeTournee")) == code && (TextThrows(Field(p, "id")) || AgencyTestThrows(p, ag)))
  }

  /** The updater throws: on `String(codeTournee)`, on `String(agence)`, or on a row. */
  predicate NewIdThrows(params: seq<Json>, agence: Json, codeTournee: Json) {
    StrThrows(codeTournee) || StrThrows(agence) ||
    exists i :: 0 <= i < |params| && NewIdRowThrows(params[i], Trim(ToStr(codeTournee)), Lower(ToStr(agence)))
  }

  /** The updater `/newid` passes to `updateParams`, for the body's `agence` and
      `codeTournee` (both truthy) and the clock's `now`. */
  function NewIdTransform(params: seq<Json>, agence: Json, codeTournee: Json, now: string): Result<NewIdResult> {
    if NewIdThrows(params, agence, codeTournee) then Err(TypeErrorName)
    else
      assert NoNullRow(params);
      var code := Trim(ToStr(codeTournee));
      var ag := Lower(ToStr(agence));
      var id := NewIdFor(params, code);
      Ok(NewIdResult(StampRows(params, code, ag, now) + [NewRow(Reference(TourRows(params, code), ag), agence, code, id)], id))
  }

  /** The id handed out for the tour `code`. */
  function NewIdFor(params: seq<Json>, code: string): string
    requires NoNullRow(params)
  {
    var same := TourRows(params, code);
    assert NoNullRow(same);
    NewId(code, MaxSeq(same))
  }

  /** The loop of the handler that finds the largest sequence number of the tour's rows. */
  method ComputeMaxSeq(same: seq<Json>) returns (maxSeq: nat)
    requires NoNullRow(same)
    ensures maxSeq == MaxSeq(same)
  {
    ghost var nums := Seqs(same);
    maxSeq := 0;
    var i := 0;
    while i < |same|
      invariant 0 <= i <= |same|
      invariant maxSeq == MaxOf(nums[..i])
    {
      MaxOfStep(nums, i);
      var s := SeqOf(same[i]);
      if s.Some? && s.value > maxSeq {
        maxSeq := s.value;
      }
      i := i + 1;
    }
    assert nums[..i] == nums;
  }

  /** One more number either raises the maximum to itself or leaves it. */
  lemma MaxOfStep(nums: seq<Option<int>>, i: nat)
    requires i < |nums|
    ensures var m := MaxOf(nums[..i]);
      MaxOf(nums[..i + 1]) == if nums[i].Some? && nums[i].value > m then nums[i].value else m
  {
    var p := nums[..i + 1];
    assert p[..|p| - 1] == nums[..i];
    assert p[|p| - 1] == nums[i];
  }

  /** The same transform as the handler runs it: a loop for `maxSeq`, then a push. */
  method RunNewId(params: seq<Json>, agence: Json, codeTournee: Json, now: string) returns (r: Result<NewIdResult>)
    ensures r == NewIdTransform(params, agence, codeTournee, now)
  {
    if NewIdThrows(params, agence, codeTournee) {
      return Err(TypeErrorName);
    }
    assert NoNullRow(params);
    var code := Trim(ToStr(codeTournee));
    var ag := Lower(ToStr(agence));
    var same := TourRows(params, code);
    assert NoNullRow(same);
    var maxSeq := ComputeMaxSeq(same);
    var id := NewId(code, maxSeq);
    assert id == NewIdFor(params, code);
    var updated := StampRows(params, code, ag, now);
    updated := updated + [NewRow(Reference(same, ag), agence, code, id)];
    r := Ok(NewIdResult(updated, id));
  }

  /** The transform fails exactly when the updater throws (see `NewIdThrows`): so
      always on a `null` row, and with a body and rows holding no throwing value only
      then. */
  lemma NewIdFailures(params: seq<Json>, agence: Json, codeTournee: Json, now: string)
    ensures NewIdTransform(params, agence, codeTournee, now).Err? <==> NewIdThrows(params, agence, codeTournee)
    ensures (exists i :: 0 <= i < |params| && params[i].JNull?) ==> NewIdTransform(params, agence, codeTournee, now).Err?
    ensures !StrThrows(codeTournee) && !StrThrows(agence) && (forall i :: 0 <= i < |params| ==> PlainRow(params[i])) ==>
      (NewIdTransform(params, agence, codeTournee, now).Err? <==> exists i :: 0 <= i < |params| && params[i].JNull?)
  {
    NewIdErrExactly(params, agence, codeTournee, now);
    var code, ag := Trim(ToStr(codeTournee)), Lower(ToStr(agence));
    if exists i :: 0 <= i < |params| && params[i].JNull? {
      var i :| 0 <= i < |params| && params[i].JNull?;
      assert NewIdRowThrows(params[i], code, ag);
    }
    if !StrThrows(codeTournee) && !StrThrows(agence) && (forall i :: 0 <= i < |params| ==> PlainRow(params[i])) {
      PlainRowsConvert(params, code, ag);
    }
  }

  lemma NewIdErrExactly(params: seq<Json>, agence: Json, codeTournee: Json, now: string)
    ensures NewIdTransform(params, agence, codeTournee, now).Err? <==> NewIdThrows(params, agence, codeTournee)
  {
  }

  /** In plain rows only a `null` one throws. */
  lemma PlainRowsConvert(params: seq<Json>, code: string, ag: string)
    requires forall i :: 0 <= i < |params| ==> PlainRow(params[i])
    ensures forall i :: 0 <= i < |params| ==> (NewIdRowThrows(params[i], code, ag) <==> params[i].JNull?)
  {
    forall i | 0 <= i < |params| && !params[i].JNull?
      ensures !NewIdRowThrows(params[i], code, ag)
    {
      PlainFieldsConvert(params[i]);
    }
  }

  /** No property of a plain row throws when converted. */
  lemma PlainFieldsConvert(p: Json)
    requires PlainRow(p) && !p.JNull?
    ensures forall name :: !TextThrows(Field(p, name))
  {
  }

  /** A row none of whose properties throws when converted. */
  predicate PlainRow(p: Json) {
    p.JObj? ==> forall k :: k in p.fields ==> !StrThrows(p.fields[k])
  }

  /** Otherwise the registry grows by one row, the new one last, carrying the new id,
      the trimmed tour code and no replacement date. */
  lemma NewIdAppendsRow(params: seq<Json>, agence: Json, codeTournee: Json, now: string)
    requires NewIdTransform(params, agence, codeTournee, now).Ok?
    ensures var res := NewIdTransform(params, agence, codeTournee, now).value;
      && |res.rows| == |params| + 1
      && res.rows[|params|].JObj?
      && res.rows[|params|].fields["id"] == JStr(res.id)
      && res.rows[|params|].fields["codeTournee"] == JStr(Trim(ToStr(codeTournee)))
      && res.rows[|params|].fields["dernierRemplacement"] == JNull
  {
    var code := Trim(ToStr(codeTournee));
    var ag := Lower(ToStr(agence));
    var res := NewIdTransform(params, agence, codeTournee, now).value;
    var row := NewRow(Reference(TourRows(params, code), ag), agence, code, res.id);
    assert res.rows == StampRows(params, code, ag, now) + [row];
    NewRowFields(Reference(TourRows(params, code), ag), agence, code, res.id);
  }

  /** The pushed row: the reference's agency, agency code and tour name when truthy (the
      body's `agence` for both agency fields otherwise, "" for the tour name), the
      trimmed tour code, the new id, and an empty driver, carrier and replacement date. */
  lemma NewRowFields(r: Json, agence: Json, code: string, id: string)
    ensures NewRow(r, agence, code, id).JObj?
    ensures NewRow(r, agence, code, id).fields.Keys ==
      {"agence", "codeAgence", "tournee", "codeTournee", "transporteur", "codeTransporteur", "id", "dernierRemplacement"}
    ensures var a := RefProp(r, "agence");
      NewRow(r, agence, code, id).fields["agence"] == if Truthy(a) then a.value else agence
    ensures var c := RefProp(r, "codeAgence");
      NewRow(r, agence, code, id).fields["codeAgence"] == if Truthy(c) then c.value else agence
    ensures var t := RefProp(r, "tournee");
      NewRow(r, agence, code, id).fields["tournee"] == if Truthy(t) then t.value else JStr("")
    ensures NewRow(r, agence, code, id).fields["transporteur"] == JStr("")
    ensures NewRow(r, agence, code, id).fields["codeTransporteur"] == JStr("")
    ensures NewRow(r, agence, code, id).fields["id"] == JStr(id)
    ensures NewRow(r, agence, code, id).fields["codeTournee"] == JStr(code)
    ensures NewRow(r, agence, code, id).fields["dernierRemplacement"] == JNull
  {
  }

  /** Every earlier row keeps its place; only the tour's rows of the agency change, by
      getting `dernierRemplacement = now` and keeping every other property. */
  lemma NewIdStampsRows(params: seq<Json>, agence: Json, codeTournee: Json, now: string)
    requires NewIdTransform(params, agence, codeTournee, now).Ok?
    ensures var res := NewIdTransform(params, agence, codeTournee, now).value;
      var code := Trim(ToStr(codeTournee));
      var ag := Lower(ToStr(agence));
      && (forall i :: 0 <= i < |params| && !(OfTour(params[i], code) && OfAgency(params[i], ag)) ==>
            res.rows[i] == params[i])
      && (forall i :: 0 <= i < |params| && OfTour(params[i], code) && OfAgency(params[i], ag) && params[i].JObj? ==>
            res.rows[i] == JObj(params[i].fields["dernierRemplacement" := JStr(now)]))
  {
    var code := Trim(ToStr(codeTournee));
    var ag := Lower(ToStr(agence));
    var res := NewIdTransform(params, agence, codeTournee, now).value;
    PrefixIsStamped(params, res.rows, code, ag, now);
  }

  lemma PrefixIsStamped(params: seq<Json>, rows: seq<Json>, code: string, ag: string, now: string)
    requires |rows| == |params| + 1 && rows[..|params|] == StampRows(params, code, ag, now)
    ensures forall i :: 0 <= i < |params| && !(OfTour(params[i], code) && OfAgency(params[i], ag)) ==>
      rows[i] == params[i]
    ensures forall i :: 0 <= i < |params| && OfTour(params[i], code) && OfAgency(params[i], ag) && params[i].JObj? ==>
      rows[i] == JObj(params[i].fields["dernierRemplacement" := JStr(now)])
  {
    var stamped := StampRows(params, code, ag, now);
    assert forall i :: 0 <= i < |params| ==> rows[i] == stamped[i];
  }

  /** The new id is used by no row of the tour. */
  lemma NewIdUnused(params: seq<Json>, agence: Json, codeTournee: Json, now: string)
    requires NewIdTransform(params, agence, codeTournee, now).Ok?
    ensures var res := NewIdTransform(params, agence, codeTournee, now).value;
      forall i :: 0 <= i < |params| && OfTour(params[i], Trim(ToStr(codeTournee))) ==> RowText(params[i], "id") != res.id
  {
    var code := Trim(ToStr(codeTournee));
    assert NoNullRow(params);
    assert NewIdTransform(params, agence, codeTournee, now).value.id == NewIdFor(params, code);
    TourIdsDiffer(params, code);
  }

  lemma TourIdsDiffer(params: seq<Json>, code: string)
    requires NoNullRow(params)
    ensures forall i :: 0 <= i < |params| && OfTour(params[i], code) ==> RowText(params[i], "id") != NewIdFor(params, code)
  {
    var same := TourRows(params, code);
    assert NoNullRow(same);
    var id := NewId(code, MaxSeq(same));
    assert NewIdFor(params, code) == id;
    NewIdFresh(same, code);
    forall i | 0 <= i < |params| && OfTour(params[i], code)
      ensures RowText(params[i], "id") != id
    {
      FilterMembers(params, InTour(code), params[i]);
      var j :| 0 <= j < |same| && same[j] == params[i];
    }
  }
}
