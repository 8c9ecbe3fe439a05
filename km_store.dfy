/**
 * The write side of routes/kilometrage.js: `appendRecord` and `updateParams`
 * queue a read-modify-write job behind the per-key write queue, and the
 * handlers `POST /save`, `POST /absent` and `POST /newid` check their body
 * before anything is queued. The asynchronous run of a job becomes the explicit
 * step `RunNext`: the running operation of a key performs its job against the
 * FTP server (unless its chain carries a rejection) and settles.
 *
 * A handler's final answer follows from how its operation settles: 200 when it
 * is fulfilled, else a 500 with the handler's message.
 */
module KmStore {
  import opened Optional
  import opened JsonValue
  import opened KmKeys
  import opened KmQueue
  import opened KmFtp
  import opened KmRecords
  import opened KmRegistry
  import opened KmReads

  const NewIdMissing: string := "Champs manquants (agence / codeTournee)"
  const SaveFailed: string := "Erreur enregistrement kilométrage"
  const AbsentFailed: string := "Erreur déclaration d'absence"
  const NewIdFailed: string := "Erreur génération du nouvel ID"

  /** What a queued operation does once it runs: `appendRecord`'s job pushes a record
      onto a monthly array, `updateParams`'s job applies the `/newid` transform to the
      registry. */
  datatype Job =
    | Append(path: string, record: Json)
    | RenewId(path: string, agence: Json, codeTournee: Json, now: string)

  /** The array a job writes back, given the array it read, and the id it hands out. */
  datatype Update = Update(rows: seq<Json>, id: Option<string>)

  function Updated(existing: seq<Json>, job: Job): Result<Update> {
    match job
    case Append(_, record) => Ok(Update(existing + [record], None))
    case RenewId(_, agence, codeTournee, now) =>
      match NewIdTransform(existing, agence, codeTournee, now)
      case Err(e) => Err(e)
      case Ok(res) => Ok(Update(res.rows, Some(res.id)))
  }

  /** The files after a job ran, how its `fn` ended, and the id `/newid` then answers. */
  datatype JobRun = JobRun(files: map<string, Content>, outcome: Outcome, id: Option<string>)

  /** One run of a job: read the file (`readFault` is the transport error of the read),
      compute the new array, write it (`writeFault` is the error of the upload, with what
      it left in the file). */
  function RunJob(files: map<string, Content>, job: Job, readFault: Option<Fault>, writeFault: Option<WriteFault>): JobRun {
    match ReadFrom(files, job.path, readFault)
    case Err(e) => JobRun(files, Outcome.Rejected(e), None)
    case Ok(v) =>
      match Updated(AsArray(v), job)
      case Err(e) => JobRun(files, Outcome.Rejected(e), None)
      case Ok(u) =>
        if writeFault.Some? then
          JobRun(AfterFailedWrite(files, job.path, writeFault.value), Outcome.Rejected(writeFault.value.message), None)
        else JobRun(files[job.path := Written(JArr(u.rows))], Fulfilled, u.id)
  }

  /** The job `appendRecord(record)` queues, and the key it queues it under: as written,
      `sanitize(codeAgence || agence) + "/" + month`, which is not always the key of the
      file the job rewrites (`LockKeyNotPerFile`, `AsWrittenAppendsRace`). */
  function AppendJob(baseDir: string, record: KmRecord, currentYearMonth: string): Job {
    Append(AppendPath(baseDir, record.codeAgence, record.agence, record.date, currentYearMonth), ToJson(record))
  }

  function AppendKey(record: KmRecord, currentYearMonth: string): string {
    MonthlyLockKey(record.codeAgence, record.agence, record.date, currentYearMonth)
  }

  /** Two appends to one file, one with a code that sanitises to "" and one with the
      sentinel code, queue under two keys: when neither key is busy, both start at once,
      so both read the file before either writes (`RacingAppendsLoseOne`). */
  lemma AsWrittenAppendsRace(chains: Queues<nat>, baseDir: string, bad: string, r1: KmRecord, r2: KmRecord,
                             currentYearMonth: string, op1: nat)
    requires bad != "" && SanitizeAgenceCode(bad) == ""
    requires r1.codeAgence == bad && r2.codeAgence == Sentinel && r1.date == r2.date
    requires AppendKey(r1, currentYearMonth) !in chains && AppendKey(r2, currentYearMonth) !in chains
    ensures AppendJob(baseDir, r1, currentYearMonth).path == AppendJob(baseDir, r2, currentYearMonth).path
    ensures AppendKey(r2, currentYearMonth) !in Enqueue(chains, AppendKey(r1, currentYearMonth), op1)
  {
    LockKeyNotPerFile(baseDir, bad, r1.date, currentYearMonth);
    assert AppendKey(r1, currentYearMonth) == MonthlyLockKey(bad, "", r1.date, currentYearMonth);
    assert AppendKey(r2, currentYearMonth) == MonthlyLockKey(Sentinel, "", r1.date, currentYearMonth);
  }

  /** A job touches no file but its own. One that fails before its upload writes
      nothing; one whose upload fails leaves in its file what the upload left, if
      anything; one that succeeds writes its array. */
  lemma RunJobFrame(files: map<string, Content>, job: Job, readFault: Option<Fault>, writeFault: Option<WriteFault>)
    ensures var run := RunJob(files, job, readFault, writeFault);
      && (run.files == files || (job.path in run.files && run.files == files[job.path := run.files[job.path]]))
      && (run.outcome.Rejected? ==> run.id.None?)
      && (run.outcome.Rejected? && writeFault.None? ==> run.files == files)
      && (run.files != files ==>
            run.outcome.Rejected? ==> writeFault.Some? && writeFault.value.leftover == Some(run.files[job.path]))
      && (run.outcome.Fulfilled? ==>
            writeFault.None? && job.path in run.files && run.files[job.path].Written?)
  {
    var read := ReadFrom(files, job.path, readFault);
    if read.Ok? && Updated(AsArray(read.value), job).Ok? && writeFault.Some? {
      assert RunJob(files, job, readFault, writeFault).files == AfterFailedWrite(files, job.path, writeFault.value);
    }
  }

  /** A failed upload can cost the whole month: when it leaves a partial file that does
      not parse, the file reads as `null`, and the next append rewrites it with its own
      record alone, whatever records it held before. */
  lemma InterruptedUploadLosesMonth(files: map<string, Content>, path: string, r1: Json, r2: Json,
                                    message: string, partial: string)
    ensures var first := RunJob(files, Append(path, r1), None, Some(WriteFault(message, Some(Raw(partial, None)))));
      var second := RunJob(first.files, Append(path, r2), None, None);
      && first.outcome == Outcome.Rejected(message)
      && second.outcome == Fulfilled
      && ReadFrom(second.files, path, None) == Ok(JArr([r2]))
  {
    ReadThrowsOnlyOnFaults(files, path, None);
    var first := RunJob(files, Append(path, r1), None, Some(WriteFault(message, Some(Raw(partial, None)))));
    assert first.files == files[path := Raw(partial, None)];
    assert ReadFrom(first.files, path, None) == Ok(JNull);
    assert first.outcome == Outcome.Rejected(message);
    AppendAddsRecord(first.files, path, r2);
    assert AsArray(JNull) + [r2] == [r2];
    ReadAfterWrite(first.files, path, JArr([r2]));
  }

  /** Without transport errors an append always succeeds: the file then holds what it
      read as before, with the record added last. */
  lemma AppendAddsRecord(files: map<string, Content>, path: string, record: Json)
    ensures var run := RunJob(files, Append(path, record), None, None);
      && run.outcome == Fulfilled
      && run.files == files[path := Written(JArr(AsArray(ReadFrom(files, path, None).value) + [record]))]
  {
    ReadThrowsOnlyOnFaults(files, path, None);
  }

  /** Serialised appends lose nothing: two appends to one file, run one after the other,
      leave both records, in order, after the ones already there. */
  lemma SerialAppendsKeepBoth(files: map<string, Content>, path: string, r1: Json, r2: Json)
    ensures var mid := RunJob(files, Append(path, r1), None, None).files;
      var after := RunJob(mid, Append(path, r2), None, None).files;
      ReadFrom(after, path, None) == Ok(JArr(AsArray(ReadFrom(files, path, None).value) + [r1, r2]))
  {
    var before := AsArray(ReadFrom(files, path, None).value);
    AppendAddsRecord(files, path, r1);
    var mid := RunJob(files, Append(path, r1), None, None).files;
    ReadAfterWrite(files, path, JArr(before + [r1]));
    AppendAddsRecord(mid, path, r2);
    var after := RunJob(mid, Append(path, r2), None, None).files;
    ReadAfterWrite(mid, path, JArr(before + [r1] + [r2]));
    assert before + [r1] + [r2] == before + [r1, r2];
  }

  /** Why the queue exists: when two appends both read the file before either writes,
      the later write keeps only the second record. */
  lemma RacingAppendsLoseOne(files: map<string, Content>, path: string, r1: Json, r2: Json)
    requires r1 != r2 && r1 !in AsArray(ReadFrom(files, path, None).value)
    ensures var first := RunJob(files, Append(path, r1), None, None).files;
      var second := RunJob(files, Append(path, r2), None, None).files;
      path in second &&
      r1 !in AsArray(ReadFrom(first[path := second[path]], path, None).value)
  {
    var before := AsArray(ReadFrom(files, path, None).value);
    var w := Written(JArr(before + [r2]));
    AppendAddsRecord(files, path, r1);
    AppendAddsRecord(files, path, r2);
    var first := RunJob(files, Append(path, r1), None, None).files;
    var second := RunJob(files, Append(path, r2), None, None).files;
    assert second == files[path := w];
    LostUpdate(first, path, before, r1, r2);
  }

  /** Writing `before + [r2]` over any file leaves no `r1` unless `before` had one. */
  lemma LostUpdate(first: map<string, Content>, path: string, before: seq<Json>, r1: Json, r2: Json)
    requires r1 != r2 && r1 !in before
    ensures r1 !in AsArray(ReadFrom(first[path := Written(JArr(before + [r2]))], path, None).value)
  {
    ReadAfterWrite(first, path, JArr(before + [r2]));
    assert r1 !in before + [r2];
  }

  /** Without transport errors the registry job succeeds exactly when its updater does
      not throw (a `null` row, or a throwing conversion of the body or of a row);
      the registry then holds the transform's rows and the handed-out id is answered. */
  lemma RenewIdRun(files: map<string, Content>, path: string, agence: Json, codeTournee: Json, now: string)
    ensures var params := AsArray(ReadFrom(files, path, None).value);
      var run := RunJob(files, RenewId(path, agence, codeTournee, now), None, None);
      var t := NewIdTransform(params, agence, codeTournee, now);
      && (run.outcome == Fulfilled <==> !NewIdThrows(params, agence, codeTournee))
      && (t.Ok? ==> ReadFrom(run.files, path, None) == Ok(JArr(t.value.rows)) && run.id == Some(t.value.id))
  {
    ReadThrowsOnlyOnFaults(files, path, None);
    NewIdFailures(AsArray(ReadFrom(files, path, None).value), agence, codeTournee, now);
  }

  /** A saved record is read back by `/resume` and `/data` under its agency code: the
      file its job rewrites is the month file of `sanitizeAgenceCode(codeAgence || agence)`. */
  lemma SavedRecordIsRead(files: map<string, Content>, baseDir: string, record: KmRecord, currentYearMonth: string,
                          code: string, ym: string)
    requires code == SanitizeAgenceCode(if record.codeAgence != "" then record.codeAgence else record.agence)
    requires ym == ToYearMonth(record.date, currentYearMonth)
    ensures ReadMonthlyRecords(files, baseDir, code, ym, None).Ok?
    ensures var run := RunJob(files, AppendJob(baseDir, record, currentYearMonth), None, None);
      ReadMonthlyRecords(run.files, baseDir, code, ym, None)
        == Ok(ReadMonthlyRecords(files, baseDir, code, ym, None).value + [ToJson(record)])
  {
    var path := MonthlyRemotePath(baseDir, code, ym);
    assert AppendJob(baseDir, record, currentYearMonth) == Append(path, ToJson(record));
    MonthAppend(files, baseDir, code, ym, ToJson(record));
  }

  /** An append to a month file adds its record to what `readMonthlyRecords` returns. */
  lemma MonthAppend(files: map<string, Content>, baseDir: string, code: string, ym: string, x: Json)
    ensures ReadMonthlyRecords(files, baseDir, code, ym, None).Ok?
    ensures var run := RunJob(files, Append(MonthlyRemotePath(baseDir, code, ym), x), None, None);
      ReadMonthlyRecords(run.files, baseDir, code, ym, None) == Ok(ReadMonthlyRecords(files, baseDir, code, ym, None).value + [x])
  {
    var path := MonthlyRemotePath(baseDir, code, ym);
    var before := AsArray(ReadFrom(files, path, None).value);
    ReadThrowsOnlyOnFaults(files, path, None);
    assert ReadMonthlyRecords(files, baseDir, code, ym, None) == Ok(before);
    AppendAddsRecord(files, path, x);
    ReadAfterWrite(files, path, JArr(before + [x]));
  }

  /** The mileage store of the running server: the FTP server, the write queues and the
      job of every queued operation. */
  class Store {
    const ftp: FtpServer
    const queues: WriteQueues
    const baseDir: string
    var jobs: map<nat, Job>
    var nextOp: nat

    /** Every queued operation has its job; operation numbers are never reused. */
    ghost predicate Valid()
      reads this, queues
    {
      && queues.Valid()
      && (forall k, i :: k in queues.chains && 0 <= i < |queues.chains[k].pending| ==>
            queues.chains[k].pending[i] in jobs)
      && (forall op :: op in jobs ==> op < nextOp)
    }

    constructor (initial: map<string, Content>, baseDir: string)
      ensures Valid() && fresh(ftp) && fresh(queues)
      ensures ftp.files == initial && this.baseDir == baseDir
      ensures queues.chains == map[] && jobs == map[] && nextOp == 0
    {
      ftp := new FtpServer(initial);
      queues := new WriteQueues();
      this.baseDir := baseDir;
      jobs := map[];
      nextOp := 0;
    }

    /** `withFileLock(key, fn)` for `job`, which becomes operation `op`. */
    method Schedule(key: string, job: Job) returns (op: nat, startsNow: bool)
      requires Valid()
      modifies this, queues
      ensures Valid()
      ensures op == old(nextOp) && nextOp == op + 1 && jobs == old(jobs)[op := job]
      ensures queues.chains == Enqueue(old(queues.chains), key, op)
      ensures startsNow <==> key !in old(queues.chains)
    {
      op := nextOp;
      startsNow := queues.WithFileLock(key, op);
      jobs := jobs[op := job];
      nextOp := nextOp + 1;
    }

    /** `appendRecord(record)`. */
    method AppendRecord(record: KmRecord, currentYearMonth: string) returns (op: nat)
      requires Valid()
      modifies this, queues
      ensures Valid()
      ensures op == old(nextOp) && nextOp == op + 1
      ensures jobs == old(jobs)[op := AppendJob(baseDir, record, currentYearMonth)]
      ensures queues.chains == Enqueue(old(queues.chains), AppendKey(record, currentYearMonth), op)
    {
      var key := MonthlyLockKey(record.codeAgence, record.agence, record.date, currentYearMonth);
      var path := AppendPath(baseDir, record.codeAgence, record.agence, record.date, currentYearMonth);
      var startsNow;
      op, startsNow := Schedule(key, Append(path, ToJson(record)));
    }

    /** `updateParams` with the `/newid` transform. */
    method UpdateParams(agence: Json, codeTournee: Json, now: string) returns (op: nat)
      requires Valid()
      modifies this, queues
      ensures Valid()
      ensures op == old(nextOp) && nextOp == op + 1
      ensures jobs == old(jobs)[op := RenewId(ParamsRemotePath(baseDir), agence, codeTournee, now)]
      ensures queues.chains == Enqueue(old(queues.chains), ParamsLockKey, op)
    {
      var startsNow;
      op, startsNow := Schedule(ParamsLockKey, RenewId(ParamsRemotePath(baseDir), agence, codeTournee, now));
    }

    /** A checked record: rejected with 400 or, when building it threw, answered 500 with
        the handler's message `failed`, both before anything is queued; or appended. */
    method Submit(checked: Checked, failed: string, currentYearMonth: string) returns (r: Reply<nat>)
      requires Valid()
      modifies this, queues
      ensures Valid()
      ensures checked.Rejected? ==>
        r == Refused(400, checked.error) && jobs == old(jobs) && nextOp == old(nextOp) && queues.chains == old(queues.chains)
      ensures checked.Threw? ==>
        r == Refused(500, failed) && jobs == old(jobs) && nextOp == old(nextOp) && queues.chains == old(queues.chains)
      ensures checked.Accepted? ==>
        && r == Answer(old(nextOp)) && nextOp == old(nextOp) + 1
        && jobs == old(jobs)[old(nextOp) := AppendJob(baseDir, checked.record, currentYearMonth)]
        && queues.chains == Enqueue(old(queues.chains), AppendKey(checked.record, currentYearMonth), old(nextOp))
    {
      match checked
      case Rejected(e) =>
        r := Refused(400, e);
      case Threw =>
        r := Refused(500, failed);
      case Accepted(record) =>
        var op := AppendRecord(record, currentYearMonth);
        r := Answer(op);
    }

    /** `POST /save`: the answer is 400, or 500 with `SaveFailed` when building the
        record throws, or the operation whose settlement decides between 200 and a 500
        with `SaveFailed`. */
    method Save(body: Json, now: string, currentYearMonth: string) returns (r: Reply<nat>)
      requires Valid()
      modifies this, queues
      ensures Valid()
      ensures r.Refused? <==> !CheckSave(body, now).Accepted?
      ensures CheckSave(body, now).Rejected? ==> r == Refused(400, CheckSave(body, now).error)
      ensures CheckSave(body, now).Threw? ==> r == Refused(500, SaveFailed)
      ensures r.Refused? ==> jobs == old(jobs) && nextOp == old(nextOp) && queues.chains == old(queues.chains)
      ensures r.Answer? ==>
        && r.value == old(nextOp) && nextOp == r.value + 1
        && jobs == old(jobs)[r.value := AppendJob(baseDir, CheckSave(body, now).record, currentYearMonth)]
        && queues.chains == Enqueue(old(queues.chains), AppendKey(CheckSave(body, now).record, currentYearMonth), r.value)
    {
      r := Submit(CheckSave(body, now), SaveFailed, currentYearMonth);
    }

    /** `POST /absent`, likewise with `AbsentFailed`. */
    method Absent(body: Json, now: string, currentYearMonth: string) returns (r: Reply<nat>)
      requires Valid()
      modifies this, queues
      ensures Valid()
      ensures r.Refused? <==> !CheckAbsent(body, now).Accepted?
      ensures CheckAbsent(body, now).Rejected? ==> r == Refused(400, CheckAbsent(body, now).error)
      ensures CheckAbsent(body, now).Threw? ==> r == Refused(500, AbsentFailed)
      ensures r.Refused? ==> jobs == old(jobs) && nextOp == old(nextOp) && queues.chains == old(queues.chains)
      ensures r.Answer? ==>
        && r.value == old(nextOp) && nextOp == r.value + 1
        && jobs == old(jobs)[r.value := AppendJob(baseDir, CheckAbsent(body, now).record, currentYearMonth)]
        && queues.chains == Enqueue(old(queues.chains), AppendKey(CheckAbsent(body, now).record, currentYearMonth), r.value)
    {
      r := Submit(CheckAbsent(body, now), AbsentFailed, currentYearMonth);
    }

    /** `POST /newid`: 400 without a truthy `agence` or `codeTournee`, else the registry
        job is queued; its run hands out the id (200) or fails (500, `NewIdFailed`). */
    method NewId(body: Json, now: string) returns (r: Reply<nat>)
      requires Valid()
      modifies this, queues
      ensures Valid()
      ensures var agence, code := Prop(body, "agence"), Prop(body, "codeTournee");
        && (r.Refused? <==> !Truthy(agence) || !Truthy(code))
        && (r.Refused? ==>
              r == Refused(400, NewIdMissing) && jobs == old(jobs) && nextOp == old(nextOp) && queues.chains == old(queues.chains))
        && (r.Answer? ==>
              && r.value == old(nextOp) && nextOp == r.value + 1
              && jobs == old(jobs)[r.value := RenewId(ParamsRemotePath(baseDir), agence.value, code.value, now)]
              && queues.chains == Enqueue(old(queues.chains), ParamsLockKey, r.value))
    {
      var agence, code := Prop(body, "agence"), Prop(body, "codeTournee");
      if !Truthy(agence) || !Truthy(code) {
        return Refused(400, NewIdMissing);
      }
      var op := UpdateParams(agence.value, code.value, now);
      r := Answer(op);
    }

    /** The body of a job's `fn`: read the file, compute the new array, write it. */
    method Perform(job: Job, readFault: Option<Fault>, writeFault: Option<WriteFault>) returns (attempt: Outcome, id: Option<string>)
      modifies ftp
      ensures var run := RunJob(old(ftp.files), job, readFault, writeFault);
        attempt == run.outcome && ftp.files == run.files && id == run.id
    {
      ghost var run := RunJob(ftp.files, job, readFault, writeFault);
      attempt := Fulfilled;
      id := None;
      var read := ftp.ReadJson(job.path, readFault);
      if read.Err? {
        attempt := Outcome.Rejected(read.error);
        return;
      }
      var existing := AsArray(read.value);
      var rows: seq<Json> := [];
      match job {
        case Append(_, record) =>
          rows := existing + [record];
        case RenewId(_, agence, codeTournee, now) =>
          var res := RunNewId(existing, agence, codeTournee, now);
          if res.Err? {
            attempt := Outcome.Rejected(res.error);
            return;
          }
          rows := res.value.rows;
          id := Some(res.value.id);
      }
      var err := ftp.WriteJson(job.path, JArr(rows), writeFault);
      if err.Some? {
        attempt := Outcome.Rejected(err.value);
        id := None;
      }
    }

    /** The running operation of `key` settles. Unless its chain carries a rejection its
        job runs first: read, transform (the `/newid` loop included), write. */
    method RunNext(key: string, readFault: Option<Fault>, writeFault: Option<WriteFault>) returns (s: Settled<nat>, id: Option<string>)
      requires Valid() && key in queues.chains
      modifies ftp, queues
      ensures Valid()
      ensures var c := old(queues.chains[key]);
        var run := RunJob(old(ftp.files), jobs[c.pending[0]], readFault, writeFault);
        && s == SettleResult(old(queues.chains), key, run.outcome)
        && queues.chains == Settle(old(queues.chains), key, run.outcome)
        && (c.carried.None? ==> ftp.files == run.files && id == run.id)
        && (c.carried.Some? ==> ftp.files == old(ftp.files) && id.None?)
    {
      var c := queues.chains[key];
      var job := jobs[c.pending[0]];
      ghost var run := RunJob(ftp.files, job, readFault, writeFault);
      var attempt := Fulfilled;
      id := None;
      if c.carried.None? {
        attempt, id := Perform(job, readFault, writeFault);
      }
      s := queues.Complete(key, attempt);
      assert SettleResult(old(queues.chains), key, attempt) == SettleResult(old(queues.chains), key, run.outcome);
    }
  }
}
