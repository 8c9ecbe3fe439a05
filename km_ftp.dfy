/**
 * The FTP side of routes/kilometrage.js as the store sees it: a map from remote
 * path to file content, `ftpReadJson` with its classification of what it reads,
 * `ftpWriteJson`, and `readMonthlyRecords`. Connections, temporary files and
 * the JSON text itself are not modelled: a file holds either what
 * `ftpWriteJson` uploaded or some other text together with the outcome of
 * `JSON.parse` on it.
 */
module KmFtp {
  import opened Optional
  import opened JsText
  import opened JsonValue
  import opened KmKeys

  /** A remote file. `Written(v)` is what `ftpWriteJson` uploads for `v`: indented JSON
      plus a newline, never blank, parsing back to `v`. `Raw(text, parsed)` is any
      other content, with what `JSON.parse` makes of its trimmed text (`None` when it
      throws). */
  datatype Content = Written(value: Json) | Raw(text: string, parsed: Option<Json>)

  /** An error met while reading: connecting (`connectFtp` inside `withFtp`, outside the
      classifying `try`) or downloading (`client.downloadTo`, inside it). */
  datatype Fault = ConnectFailed(message: string) | DownloadFailed(message: string)

  /** What `client.downloadTo` yields: the content, or the message of its error
      (`String(err?.message || "")`). */
  datatype Download = Fetched(content: Content) | Failed(message: string)

  /** The error message of the FTP server for a path it does not have. */
  const MissingMessage: string := "550 No such file or directory"

  /** The messages `ftpReadJson` reads as "the file is absent". */
  predicate IsMissing(message: string) {
    Contains(message, "550") || Contains(message, "ENOENT")
  }

  lemma MissingMessageIsMissing()
    ensures IsMissing(MissingMessage)
  {
    assert StartsWith(MissingMessage, "550");
  }

  /** The classification of `ftpReadJson`: blank content, unparsable content and an
      absent file read as `null` (`JNull`); only another download error is rethrown. */
  function ClassifyRead(d: Download): (r: Result<Json>)
    ensures r.Err? <==> d.Failed? && !IsMissing(d.message)
    ensures r.Err? ==> r.error == d.message
    ensures d.Failed? && IsMissing(d.message) ==> r == Ok(JNull)
    ensures d.Fetched? && d.content.Raw? && AllSpace(d.content.text) ==> r == Ok(JNull)
    ensures d.Fetched? && d.content.Raw? && d.content.parsed.None? ==> r == Ok(JNull)
    ensures d.Fetched? && d.content.Written? ==> r == Ok(d.content.value)
  {
    match d
    case Failed(m) => if IsMissing(m) then Ok(JNull) else Err(m)
    case Fetched(Written(v)) => Ok(v)
    case Fetched(Raw(text, parsed)) =>
      TrimEmpty(text);
      if Trim(text) == [] then Ok(JNull)
      else if parsed.None? then Ok(JNull)
      else Ok(parsed.value)
  }

  /** What the download of `path` yields when no fault occurs. */
  function DownloadOf(files: map<string, Content>, path: string): Download {
    if path in files then Fetched(files[path]) else Failed(MissingMessage)
  }

  /** `ftpReadJson(path)` against the files `files`; `fault` is the error the transport
      raises, if any. A connection error is never classified. */
  function ReadFrom(files: map<string, Content>, path: string, fault: Option<Fault>): (r: Result<Json>)
    ensures fault.None? ==> r.Ok?
  {
    match fault
    case Some(ConnectFailed(m)) => Err(m)
    case Some(DownloadFailed(m)) => ClassifyRead(Failed(m))
    case None => MissingMessageIsMissing(); ClassifyRead(DownloadOf(files, path))
  }

  /** `Array.isArray(v) ? v : []`. */
  function AsArray(v: Json): (r: seq<Json>)
    ensures v.JArr? ==> r == v.items
    ensures !v.JArr? ==> r == []
  {
    if v.JArr? then v.items else []
  }

  /** `readMonthlyRecords(codeAgence, yearMonth)`: the month's array, `[]` for anything
      else; an error of `ftpReadJson` propagates. */
  function ReadMonthlyRecords(files: map<string, Content>, baseDir: string, codeAgence: string,
                              yearMonth: string, fault: Option<Fault>): (r: Result<seq<Json>>)
    ensures r.Err? <==> ReadFrom(files, MonthlyRemotePath(baseDir, codeAgence, yearMonth), fault).Err?
  {
    match ReadFrom(files, MonthlyRemotePath(baseDir, codeAgence, yearMonth), fault)
    case Ok(v) => Ok(AsArray(v))
    case Err(e) => Err(e)
  }

  /** The error of a failed `ftpWriteJson`, and what the interrupted upload left in the
      remote file: `None` when it never touched the file (`ensureDir` failed, or the
      transfer did not start), else the partial content. */
  datatype WriteFault = WriteFault(message: string, leftover: Option<Content>)

  /** The files after an upload that failed with `f`: only the target may change. */
  function AfterFailedWrite(files: map<string, Content>, path: string, f: WriteFault): (r: map<string, Content>)
    ensures f.leftover.None? ==> r == files
    ensures f.leftover.Some? ==> path in r && r[path] == f.leftover.value
    ensures forall p :: p != path ==> (p in r <==> p in files)
    ensures forall p :: p != path && p in files ==> r[p] == files[p]
  {
    if f.leftover.Some? then files[path := f.leftover.value] else files
  }

  /** What `ftpWriteJson` uploads is read back unchanged. */
  lemma ReadAfterWrite(files: map<string, Content>, path: string, v: Json)
    ensures ReadFrom(files[path := Written(v)], path, None) == Ok(v)
  {
  }

  /** Writing one path leaves what every other path reads unchanged. */
  lemma ReadOtherPath(files: map<string, Content>, path: string, other: string, c: Content, fault: Option<Fault>)
    requires other != path
    ensures ReadFrom(files[path := c], other, fault) == ReadFrom(files, other, fault)
  {
  }

  /** A read depends on nothing but the file at its path. */
  lemma ReadSameFile(files: map<string, Content>, other: map<string, Content>, path: string, fault: Option<Fault>)
    requires path in files <==> path in other
    requires path in files ==> files[path] == other[path]
    ensures ReadFrom(files, path, fault) == ReadFrom(other, path, fault)
  {
    assert DownloadOf(files, path) == DownloadOf(other, path);
  }

  /** A file that does not exist reads as `null`, so a month without a file has no records. */
  lemma AbsentReadsNull(files: map<string, Content>, path: string)
    requires path !in files
    ensures ReadFrom(files, path, None) == Ok(JNull)
    ensures AsArray(ReadFrom(files, path, None).value) == []
  {
    MissingMessageIsMissing();
  }

  /** The only reads that throw are a failed connection and a download error that is
      not about an absent file; the error is the one raised. */
  lemma ReadThrowsOnlyOnFaults(files: map<string, Content>, path: string, fault: Option<Fault>)
    ensures ReadFrom(files, path, fault).Err? <==>
      (fault.Some? && (fault.value.ConnectFailed? || !IsMissing(fault.value.message)))
    ensures ReadFrom(files, path, fault).Err? ==> ReadFrom(files, path, fault).error == fault.value.message
  {
    if fault.None? && path !in files {
      MissingMessageIsMissing();
    }
  }

  /** The FTP server: the remote files by path. */
  class FtpServer {
    var files: map<string, Content>

    constructor (initial: map<string, Content>)
      ensures files == initial
    {
      files := initial;
    }

    /** `ftpReadJson(path)`. */
    function ReadJson(path: string, fault: Option<Fault>): Result<Json>
      reads this
    {
      ReadFrom(files, path, fault)
    }

    /** `ftpWriteJson(path, v)`; `fault` is the error `ensureDir` or `uploadFrom` raises.
        An interrupted upload may already have replaced the remote file with what it had
        sent so far: the fault's `leftover`, otherwise the file is left as it was. */
    method WriteJson(path: string, v: Json, fault: Option<WriteFault>) returns (err: Option<string>)
      modifies this
      ensures err.Some? <==> fault.Some?
      ensures fault.Some? ==> err.value == fault.value.message
      ensures fault.None? ==> files == old(files)[path := Written(v)]
      ensures fault.Some? ==> files == AfterFailedWrite(old(files), path, fault.value)
    {
      match fault
      case None =>
        err := None;
        files := files[path := Written(v)];
      case Some(f) =>
        err := Some(f.message);
        files := AfterFailedWrite(files, path, f);
    }
  }
}
