/**
 * The read-only endpoints of routes/kilometrage.js: `GET /data` (a year of one
 * agency, month by month, a failing month skipped), `GET /resume` (one day of one
 * agency, optionally narrowed by QR-code id, tour and driver) and `GET /params`
 * (the registry rows of an agency). A query parameter that is absent is the empty
 * string here: every handler reads `String(q || "").trim()` or, for the optional
 * filters, `""` when the parameter is `undefined`, which agree on strings.
 */
module KmReads {
  import opened Optional
  import opened JsText
  import opened JsonValue
  import opened SeqFilter
  import opened KmKeys
  import opened KmFtp
  import opened KmRegistry

  /** What a handler answers: the JSON payload, or an HTTP status with the message of
      `{ success: false, error }`. */
  datatype Reply<+T> = Answer(value: T) | Refused(status: nat, error: string)

  const DataMissing: string := "Paramètre agence manquant"
  const ResumeMissing: string := "Paramètres manquants (agence / date)"
  const ResumeFailed: string := "Erreur récupération du résumé"
  const ParamsFailed: string := "Erreur récupération des paramètres"

  // ----- GET /data -----

  /** `String(m).padStart(2, "0")`. */
  function MonthName(m: nat): string {
    PadStart(Dec(m), 2, '0')
  }

  /** The month designator `${year}-${month}`. */
  function MonthOf(year: string, m: nat): string {
    year + "-" + MonthName(m)
  }

  function MonthPath(baseDir: string, agence: string, year: string, m: nat): string {
    MonthlyRemotePath(baseDir, agence, MonthOf(year, m))
  }

  /** The year `/data` reads: the trimmed `year` query, else the current year. */
  function YearOf(yearQuery: string, currentYear: nat): (r: string)
    ensures Trim(yearQuery) != "" ==> r == Trim(yearQuery)
    ensures Trim(yearQuery) == "" ==> ToNumber(r) == Some(currentYear)
  {
    var y := Trim(yearQuery);
    if y != "" then y else ToNumberDec(currentYear); Dec(currentYear)
  }

  /** What month `m` adds to the answer: its records, or nothing when reading them throws. */
  function MonthShare(files: map<string, Content>, baseDir: string, agence: string, year: string,
                      m: nat, fault: Option<Fault>): seq<Json>
  {
    var r := ReadMonthlyRecords(files, baseDir, agence, MonthOf(year, m), fault);
    if r.Ok? then r.value else []
  }

  /** The records of months 1 to `n`, in month order; `faults[m - 1]` is the transport
      error, if any, met while reading month `m`. */
  function MonthsUpTo(files: map<string, Content>, baseDir: string, agence: string, year: string,
                      faults: seq<Option<Fault>>, n: nat): seq<Json>
    requires n <= |faults|
  {
    if n == 0 then []
    else MonthsUpTo(files, baseDir, agence, year, faults, n - 1)
         + MonthShare(files, baseDir, agence, year, n, faults[n - 1])
  }

  /** `GET /data?agence=&year=`: 400 without an agency; otherwise the twelve months are
      read one after the other and the records of every month that could be read are
      concatenated. */
  method ReadYear(ftp: FtpServer, baseDir: string, agenceQuery: string, yearQuery: string,
                  currentYear: nat, faults: seq<Option<Fault>>) returns (r: Reply<seq<Json>>)
    requires |faults| == 12
    ensures Trim(agenceQuery) == "" ==> r == Refused(400, DataMissing)
    ensures Trim(agenceQuery) != "" ==>
      r == Answer(MonthsUpTo(ftp.files, baseDir, Trim(agenceQuery), YearOf(yearQuery, currentYear), faults, |faults|))
  {
    var agence := Trim(agenceQuery);
    if agence == "" {
      return Refused(400, DataMissing);
    }
    var all := ReadMonths(ftp.files, baseDir, agence, YearOf(yearQuery, currentYear), faults);
    return Answer(all);
  }

  /** The loop of `/data` over the months, one read after the other. */
  method ReadMonths(files: map<string, Content>, baseDir: string, agence: string, year: string,
                    faults: seq<Option<Fault>>) returns (all: seq<Json>)
    ensures all == MonthsUpTo(files, baseDir, agence, year, faults, |faults|)
  {
    all := [];
    var n: nat := 0;
    while n < |faults|
      invariant n <= |faults|
      invariant all == MonthsUpTo(files, baseDir, agence, year, faults, n)
    {
      // month n + 1: its records, or none when its read throws
      var records := ReadMonthlyRecords(files, baseDir, agence, MonthOf(year, n + 1), faults[n]);
      MonthsUpToStep(files, baseDir, agence, year, faults, n + 1, records);
      if records.Ok? {
        all := all + records.value;
      }
      n := n + 1;
    }
  }

  /** Two different months of an agency are two different files. */
  lemma MonthPathsDistinct(baseDir: string, agence: string, year: string, i: nat, j: nat)
    requires i != j
    ensures MonthPath(baseDir, agence, year, i) != MonthPath(baseDir, agence, year, j)
  {
    MonthNamesDistinct(i, j);
    var yi := MonthOf(year, i);
    var yj := MonthOf(year, j);
    assert yi[|year| + 1..] == MonthName(i);
    assert yj[|year| + 1..] == MonthName(j);
    MonthlyPathsDistinct(baseDir, agence, yi, yj);
  }

  lemma MonthNamesDistinct(i: nat, j: nat)
    requires i != j
    ensures MonthName(i) != MonthName(j)
  {
    ParseIntPadded(i, 2);
    ParseIntPadded(j, 2);
  }

  /** The loop's step: month `i` adds what its read returned, or nothing when it threw. */
  lemma MonthsUpToStep(files: map<string, Content>, baseDir: string, agence: string, year: string,
                       faults: seq<Option<Fault>>, i: nat, records: Result<seq<Json>>)
    requires 1 <= i <= |faults|
    requires records == ReadMonthlyRecords(files, baseDir, agence, MonthOf(year, i), faults[i - 1])
    ensures MonthsUpTo(files, baseDir, agence, year, faults, i)
         == MonthsUpTo(files, baseDir, agence, year, faults, i - 1) + if records.Ok? then records.value else []
  {
  }

  /** A month whose read throws counts as a month without a file: the answer is the one
      for the same files without that month's file and without its error. */
  lemma FailedMonthIsAbsent(files: map<string, Content>, baseDir: string, agence: string,
                            year: string, faults: seq<Option<Fault>>, m: nat, n: nat)
    requires 1 <= m <= |faults| && n <= |faults|
    requires ReadMonthlyRecords(files, baseDir, agence, MonthOf(year, m), faults[m - 1]).Err?
    ensures MonthsUpTo(files, baseDir, agence, year, faults, n)
         == MonthsUpTo(files - {MonthPath(baseDir, agence, year, m)}, baseDir, agence, year, faults[m - 1 := None], n)
  {
    var p := MonthPath(baseDir, agence, year, m);
    var cleared := faults[m - 1 := None];
    forall k | 1 <= k <= n
      ensures ShareAt(files, baseDir, agence, year, faults, k) == ShareAt(files - {p}, baseDir, agence, year, cleared, k)
    {
      if k == m {
        FailedShareIsAbsent(files, baseDir, agence, year, m, faults[m - 1]);
      } else {
        assert cleared[k - 1] == faults[k - 1];
        MonthPathsDistinct(baseDir, agence, year, k, m);
        ShareOfOtherFile(files, p, baseDir, agence, year, k, faults[k - 1]);
      }
    }
    SameShares(files, files - {p}, baseDir, agence, year, faults, cleared, n);
  }

  /** Two reads of months 1 to `n` that agree month by month agree. */
  lemma {:induction false} SameShares(f1: map<string, Content>, f2: map<string, Content>, baseDir: string,
                                      agence: string, year: string, g1: seq<Option<Fault>>, g2: seq<Option<Fault>>, n: nat)
    requires n <= |g1| && n <= |g2|
    requires forall k :: 1 <= k <= n ==>
      ShareAt(f1, baseDir, agence, year, g1, k) == ShareAt(f2, baseDir, agence, year, g2, k)
    ensures MonthsUpTo(f1, baseDir, agence, year, g1, n) == MonthsUpTo(f2, baseDir, agence, year, g2, n)
  {
    if n > 0 {
      SameShares(f1, f2, baseDir, agence, year, g1, g2, n - 1);
      assert ShareAt(f1, baseDir, agence, year, g1, n) == ShareAt(f2, baseDir, agence, year, g2, n);
    }
  }

  lemma FailedShareIsAbsent(files: map<string, Content>, baseDir: string, agence: string, year: string,
                            m: nat, fault: Option<Fault>)
    requires ReadMonthlyRecords(files, baseDir, agence, MonthOf(year, m), fault).Err?
    ensures MonthShare(files, baseDir, agence, year, m, fault) == []
    ensures MonthShare(files - {MonthPath(baseDir, agence, year, m)}, baseDir, agence, year, m, None) == []
  {
    var p := MonthPath(baseDir, agence, year, m);
    AbsentReadsNull(files - {p}, p);
  }

  lemma ShareOfOtherFile(files: map<string, Content>, p: string, baseDir: string, agence: string, year: string,
                         n: nat, fault: Option<Fault>)
    requires MonthPath(baseDir, agence, year, n) != p
    ensures MonthShare(files - {p}, baseDir, agence, year, n, fault) == MonthShare(files, baseDir, agence, year, n, fault)
  {
    var q := MonthPath(baseDir, agence, year, n);
    assert DownloadOf(files - {p}, q) == DownloadOf(files, q);
  }

  /** With no transport error and only month `m`'s file present, holding the array
      `rs`, the answer is `rs`. */
  lemma {:induction false} SingleMonthAnswer(baseDir: string, agence: string, year: string,
                                             faults: seq<Option<Fault>>, m: nat, rs: seq<Json>, n: nat)
    requires forall k :: 0 <= k < |faults| ==> faults[k].None?
    requires 1 <= m && n <= |faults|
    ensures MonthsUpTo(map[MonthPath(baseDir, agence, year, m) := Written(JArr(rs))], baseDir, agence, year, faults, n)
         == if m <= n then rs else []
  {
    var files := map[MonthPath(baseDir, agence, year, m) := Written(JArr(rs))];
    forall k | 1 <= k <= n
      ensures ShareAt(files, baseDir, agence, year, faults, k) == if k == m then rs else []
    {
      assert faults[k - 1] == None;
      if k == m {
        ShareOfOnlyFile(files, baseDir, agence, year, m, rs);
      } else {
        MonthPathsDistinct(baseDir, agence, year, k, m);
        ShareOfMissing(files, baseDir, agence, year, k);
      }
    }
    OnlyMonth(files, baseDir, agence, year, faults, m, rs, n);
  }

  /** Months 1 to `n` when every month but `m` contributes nothing. */
  lemma {:induction false} OnlyMonth(files: map<string, Content>, baseDir: string, agence: string, year: string,
                                     faults: seq<Option<Fault>>, m: nat, rs: seq<Json>, n: nat)
    requires 1 <= m && n <= |faults|
    requires forall k :: 1 <= k <= n ==>
      ShareAt(files, baseDir, agence, year, faults, k) == if k == m then rs else []
    ensures MonthsUpTo(files, baseDir, agence, year, faults, n) == if m <= n then rs else []
  {
    if n > 0 {
      OnlyMonth(files, baseDir, agence, year, faults, m, rs, n - 1);
      var before := MonthsUpTo(files, baseDir, agence, year, faults, n - 1);
      var share := ShareAt(files, baseDir, agence, year, faults, n);
      assert MonthsUpTo(files, baseDir, agence, year, faults, n) == before + share;
      if n == m {
        assert before == [] && share == rs;
        assert before + share == rs;
      } else {
        assert share == [];
        assert before + share == before;
      }
    }
  }

  /** The share of month `k`, read with its own transport outcome. */
  function ShareAt(files: map<string, Content>, baseDir: string, agence: string, year: string,
                   faults: seq<Option<Fault>>, k: nat): seq<Json>
    requires 1 <= k <= |faults|
  {
    MonthShare(files, baseDir, agence, year, k, faults[k - 1])
  }

  lemma ShareOfOnlyFile(files: map<string, Content>, baseDir: string, agence: string, year: string, m: nat, rs: seq<Json>)
    requires files == map[MonthPath(baseDir, agence, year, m) := Written(JArr(rs))]
    ensures MonthShare(files, baseDir, agence, year, m, None) == rs
  {
    var empty: map<string, Content> := map[];
    assert files == empty[MonthPath(baseDir, agence, year, m) := Written(JArr(rs))];
    ReadAfterWrite(empty, MonthPath(baseDir, agence, year, m), JArr(rs));
  }

  lemma ShareOfMissing(files: map<string, Content>, baseDir: string, agence: string, year: string, n: nat)
    requires MonthPath(baseDir, agence, year, n) !in files
    ensures MonthShare(files, baseDir, agence, year, n, None) == []
  {
    AbsentReadsNull(files, MonthPath(baseDir, agence, year, n));
  }

  // ----- GET /resume -----

  /** The rows `/resume` keeps: not `null`, dated `day` (first ten characters of the
      stored date), and matching, trimmed, each optional filter that is not empty. */
  predicate Kept(r: Json, day: string, id: string, tour: string, driver: string) {
    && !r.JNull?
    && Take(RowText(r, "date"), 10) == day
    && (id == "" || Trim(RowText(r, "id")) == id)
    && (tour == "" || Trim(RowText(r, "codeTournee")) == tour)
    && (driver == "" || Trim(RowText(r, "codeChauffeur")) == driver)
  }

  function Keeps(day: string, id: string, tour: string, driver: string): Json -> bool {
    r => Kept(r, day, id, tour, driver)
  }

  /** The handler's first filter, on the date. */
  function OnDay(day: string): Json -> bool {
    (r: Json) => !r.JNull? && Take(RowText(r, "date"), 10) == day
  }

  /** An optional filter: the trimmed field `name` equals `v`. */
  function FieldIs(name: string, v: string): Json -> bool {
    (r: Json) => !r.JNull? && Trim(RowText(r, name)) == v
  }

  /** A row on which the filters of `/resume` throw: the first filter reads every row's
      `date`; each later one converts its property of the rows the earlier ones kept. */
  predicate ResumeRowThrows(r: Json, day: string, id: string, tour: string, driver: string) {
    r.JNull? || TextThrows(Field(r, "date")) ||
    (Take(RowText(r, "date"), 10) == day &&
      ((id != "" && TextThrows(Field(r, "id"))) ||
       ((id == "" || Trim(RowText(r, "id")) == id) &&
         ((tour != "" && TextThrows(Field(r, "codeTournee"))) ||
          ((tour == "" || Trim(RowText(r, "codeTournee")) == tour) &&
            driver != "" && TextThrows(Field(r, "codeChauffeur")))))))
  }

  predicate ResumeThrows(records: seq<Json>, day: string, id: string, tour: string, driver: string) {
    exists i :: 0 <= i < |records| && ResumeRowThrows(records[i], day, id, tour, driver)
  }

  /** The four filters of `/resume` one after the other; they throw on a `null` row and
      on a row whose property they convert throws. */
  function ResumeRows(records: seq<Json>, day: string, id: string, tour: string, driver: string): Result<seq<Json>> {
    if ResumeThrows(records, day, id, tour, driver) then Err(TypeErrorName)
    else
      assert NoNullRow(records);
      var byDay := Filter(records, OnDay(day));
      var byId := if id != "" then Filter(byDay, FieldIs("id", id)) else byDay;
      var byTour := if tour != "" then Filter(byId, FieldIs("codeTournee", tour)) else byId;
      var byDriver := if driver != "" then Filter(byTour, FieldIs("codeChauffeur", driver)) else byTour;
      Ok(byDriver)
  }

  /** The chained filters are one filter by `Kept`. */
  lemma ResumeRowsAreKept(records: seq<Json>, day: string, id: string, tour: string, driver: string)
    requires !ResumeThrows(records, day, id, tour, driver)
    ensures ResumeRows(records, day, id, tour, driver) == Ok(Filter(records, Keeps(day, id, tour, driver)))
  {
    var byDay := Filter(records, OnDay(day));
    FilterSame(records, OnDay(day), Keeps(day, "", "", ""));
    var byId := if id != "" then Filter(byDay, FieldIs("id", id)) else byDay;
    if id != "" {
      FilterTwice(records, Keeps(day, "", "", ""), FieldIs("id", id), Keeps(day, id, "", ""));
    }
    assert byId == Filter(records, Keeps(day, id, "", ""));
    var byTour := if tour != "" then Filter(byId, FieldIs("codeTournee", tour)) else byId;
    if tour != "" {
      FilterTwice(records, Keeps(day, id, "", ""), FieldIs("codeTournee", tour), Keeps(day, id, tour, ""));
    }
    assert byTour == Filter(records, Keeps(day, id, tour, ""));
    if driver != "" {
      FilterTwice(records, Keeps(day, id, tour, ""), FieldIs("codeChauffeur", driver), Keeps(day, id, tour, driver));
    }
  }

  /** `GET /resume?agence=&date=&id=&codeTournee=&codeChauffeur=`: 400 without an agency
      or a date; otherwise the month of `date` is read and filtered, and any error is a
      500. */
  function Resume(files: map<string, Content>, baseDir: string, agenceQuery: string, dateQuery: string,
                  idQuery: string, tourQuery: string, driverQuery: string, currentYearMonth: string,
                  fault: Option<Fault>): Reply<seq<Json>>
  {
    var agence := Trim(agenceQuery);
    var date := Trim(dateQuery);
    if agence == "" || date == "" then Refused(400, ResumeMissing)
    else
      var read := ReadMonthlyRecords(files, baseDir, agence, ToYearMonth(date, currentYearMonth), fault);
      ResumeOf(read, Take(date, 10), Trim(idQuery), Trim(tourQuery), Trim(driverQuery))
  }

  /** The answer of `/resume` once the month has been read (or its read has thrown). */
  function ResumeOf(read: Result<seq<Json>>, day: string, id: string, tour: string, driver: string): Reply<seq<Json>> {
    match read
    case Err(_) => Refused(500, ResumeFailed)
    case Ok(records) =>
      match ResumeRows(records, day, id, tour, driver)
      case Err(_) => Refused(500, ResumeFailed)
      case Ok(rows) => Answer(rows)
  }

  /** `/resume` answers 400 exactly without an agency or a date, and its only other
      refusal is the 500 of a failed read or of a row the filters throw on. */
  lemma ResumeRefusals(files: map<string, Content>, baseDir: string, agenceQuery: string, dateQuery: string,
                       idQuery: string, tourQuery: string, driverQuery: string, currentYearMonth: string,
                       fault: Option<Fault>)
    ensures var r := Resume(files, baseDir, agenceQuery, dateQuery, idQuery, tourQuery, driverQuery, currentYearMonth, fault);
      && (r == Refused(400, ResumeMissing) <==> Trim(agenceQuery) == "" || Trim(dateQuery) == "")
      && (r.Refused? ==> r.status == 400 || r == Refused(500, ResumeFailed))
  {
    var agence, date := Trim(agenceQuery), Trim(dateQuery);
    if agence != "" && date != "" {
      var read := ReadMonthlyRecords(files, baseDir, agence, ToYearMonth(date, currentYearMonth), fault);
      ResumeIsResumeOf(files, baseDir, agenceQuery, dateQuery, idQuery, tourQuery, driverQuery, currentYearMonth, fault, read);
      ResumeOfRefusal(read, Take(date, 10), Trim(idQuery), Trim(tourQuery), Trim(driverQuery));
    }
  }

  lemma ResumeOfRefusal(read: Result<seq<Json>>, day: string, id: string, tour: string, driver: string)
    ensures ResumeOf(read, day, id, tour, driver).Refused? ==> ResumeOf(read, day, id, tour, driver) == Refused(500, ResumeFailed)
  {
  }

  /** What `/resume` answers is, in file order, exactly the stored rows of the month that
      pass every filter given, each as often as the file holds it. */
  lemma ResumeAnswer(files: map<string, Content>, baseDir: string, agenceQuery: string, dateQuery: string,
                     idQuery: string, tourQuery: string, driverQuery: string, currentYearMonth: string,
                     fault: Option<Fault>, p: Json)
    requires Resume(files, baseDir, agenceQuery, dateQuery, idQuery, tourQuery, driverQuery, currentYearMonth, fault).Answer?
    ensures var rows := Resume(files, baseDir, agenceQuery, dateQuery, idQuery, tourQuery, driverQuery, currentYearMonth, fault).value;
      var records := ReadMonthlyRecords(files, baseDir, Trim(agenceQuery),
                                        ToYearMonth(Trim(dateQuery), currentYearMonth), fault).value;
      var keep := Kept(p, Take(Trim(dateQuery), 10), Trim(idQuery), Trim(tourQuery), Trim(driverQuery));
      && IsSubsequence(rows, records)
      && (p in rows <==> p in records && keep)
      && multiset(rows)[p] == if keep then multiset(records)[p] else 0
  {
    var agence, date := Trim(agenceQuery), Trim(dateQuery);
    var read := ReadMonthlyRecords(files, baseDir, agence, ToYearMonth(date, currentYearMonth), fault);
    var day, id, tour, driver := Take(date, 10), Trim(idQuery), Trim(tourQuery), Trim(driverQuery);
    assert Resume(files, baseDir, agenceQuery, dateQuery, idQuery, tourQuery, driverQuery, currentYearMonth, fault)
        == ResumeOf(read, day, id, tour, driver);
    RowsOfResume(read, day, id, tour, driver, p);
  }

  lemma RowsOfResume(read: Result<seq<Json>>, day: string, id: string, tour: string, driver: string, p: Json)
    requires ResumeOf(read, day, id, tour, driver).Answer?
    ensures read.Ok?
    ensures IsSubsequence(ResumeOf(read, day, id, tour, driver).value, read.value)
    ensures p in ResumeOf(read, day, id, tour, driver).value <==> p in read.value && Kept(p, day, id, tour, driver)
    ensures multiset(ResumeOf(read, day, id, tour, driver).value)[p]
         == if Kept(p, day, id, tour, driver) then multiset(read.value)[p] else 0
  {
    ResumeRowsAreKept(read.value, day, id, tour, driver);
    FilterIsSubsequence(read.value, Keeps(day, id, tour, driver));
    FilterMembers(read.value, Keeps(day, id, tour, driver), p);
    FilterCount(read.value, Keeps(day, id, tour, driver), p);
  }

  /** `/resume` reads only the month of `date`: two stores that agree on that file give
      the same answer. */
  lemma ResumeReadsOneFile(files: map<string, Content>, other: map<string, Content>, baseDir: string,
                           agenceQuery: string, dateQuery: string, idQuery: string, tourQuery: string,
                           driverQuery: string, currentYearMonth: string, fault: Option<Fault>)
    requires var path := MonthlyRemotePath(baseDir, Trim(agenceQuery), ToYearMonth(Trim(dateQuery), currentYearMonth));
      (path in files <==> path in other) && (path in files ==> files[path] == other[path])
    ensures Resume(files, baseDir, agenceQuery, dateQuery, idQuery, tourQuery, driverQuery, currentYearMonth, fault)
         == Resume(other, baseDir, agenceQuery, dateQuery, idQuery, tourQuery, driverQuery, currentYearMonth, fault)
  {
    var agence, date := Trim(agenceQuery), Trim(dateQuery);
    if agence != "" && date != "" {
      var ym := ToYearMonth(date, currentYearMonth);
      var path := MonthlyRemotePath(baseDir, agence, ym);
      ReadSameFile(files, other, path, fault);
      SameMonthRead(files, other, baseDir, agence, ym, fault);
      var read := ReadMonthlyRecords(files, baseDir, agence, ym, fault);
      ResumeIsResumeOf(files, baseDir, agenceQuery, dateQuery, idQuery, tourQuery, driverQuery, currentYearMonth, fault, read);
      ResumeIsResumeOf(other, baseDir, agenceQuery, dateQuery, idQuery, tourQuery, driverQuery, currentYearMonth, fault, read);
    }
  }

  lemma SameMonthRead(files: map<string, Content>, other: map<string, Content>, baseDir: string,
                      agence: string, ym: string, fault: Option<Fault>)
    requires ReadFrom(files, MonthlyRemotePath(baseDir, agence, ym), fault)
          == ReadFrom(other, MonthlyRemotePath(baseDir, agence, ym), fault)
    ensures ReadMonthlyRecords(files, baseDir, agence, ym, fault) == ReadMonthlyRecords(other, baseDir, agence, ym, fault)
  {
  }

  /** With an agency and a date, `/resume` answers what the read of their month gives. */
  lemma ResumeIsResumeOf(files: map<string, Content>, baseDir: string, agenceQuery: string, dateQuery: string,
                         idQuery: string, tourQuery: string, driverQuery: string, currentYearMonth: string,
                         fault: Option<Fault>, read: Result<seq<Json>>)
    requires Trim(agenceQuery) != "" && Trim(dateQuery) != ""
    requires read == ReadMonthlyRecords(files, baseDir, Trim(agenceQuery), ToYearMonth(Trim(dateQuery), currentYearMonth), fault)
    ensures Resume(files, baseDir, agenceQuery, dateQuery, idQuery, tourQuery, driverQuery, currentYearMonth, fault)
         == ResumeOf(read, Take(Trim(dateQuery), 10), Trim(idQuery), Trim(tourQuery), Trim(driverQuery))
  {
  }

  // ----- GET /params -----

  /** `GET /params?agence=`: the registry rows of the agency (all rows without one); an
      error while reading or filtering is a 500. */
  function Params(files: map<string, Content>, baseDir: string, agenceQuery: string, fault: Option<Fault>): Reply<seq<Json>> {
    match ReadFrom(files, ParamsRemotePath(baseDir), fault)
    case Err(_) => Refused(500, ParamsFailed)
    case Ok(v) =>
      match ParamsForAgency(AsArray(v), Trim(agenceQuery))
      case Err(_) => Refused(500, ParamsFailed)
      case Ok(rows) => Answer(rows)
  }

  /** Without a registry file `/params` answers no row; with one written by the store it
      answers the rows `ParamsForAgency` selects, and fails only when its filter throws. */
  lemma ParamsAnswerFromFile(files: map<string, Content>, baseDir: string, agenceQuery: string, rows: seq<Json>)
    ensures ParamsRemotePath(baseDir) !in files ==> Params(files, baseDir, agenceQuery, None) == Answer([])
    ensures var written := files[ParamsRemotePath(baseDir) := Written(JArr(rows))];
      && (Params(written, baseDir, agenceQuery, None).Refused? <==> Trim(agenceQuery) != "" && AgencyFilterThrows(rows, Lower(Trim(agenceQuery))))
      && (Params(written, baseDir, agenceQuery, None).Answer? ==>
            Params(written, baseDir, agenceQuery, None).value == ParamsForAgency(rows, Trim(agenceQuery)).value)
  {
    if ParamsRemotePath(baseDir) !in files {
      AbsentReadsNull(files, ParamsRemotePath(baseDir));
      ParamsAnswer([], Trim(agenceQuery), JNull);
    }
    ParamsAnswer(rows, Trim(agenceQuery), JNull);
  }
}
