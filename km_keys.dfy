/**
 * Partition keys of the mileage store (routes/kilometrage.js): the agency code
 * normaliser, the month designator, the remote paths under the base directory
 * and the write-queue keys derived from them.
 */
module KmKeys {
  import opened JsText

  /** What `sanitizeAgenceCode` falls back to when its input is falsy. */
  const Sentinel: string := "INCONNU"

  /** Default base directory when neither KM_FTP_DIR nor FTP_BASE_DIR is set. */
  const DefaultBaseDir: string := "/kilometrage"

  /** The write-queue key of the shared params.json registry. */
  const ParamsLockKey: string := "_params"

  /** The characters `[A-Z0-9_\-]` an agency code keeps. */
  predicate IsCodeChar(c: char) {
    'A' <= c <= 'Z' || '0' <= c <= '9' || c == '_' || c == '-'
  }

  predicate IsCode(s: string) {
    forall i :: 0 <= i < |s| ==> IsCodeChar(s[i])
  }

  /** `.replace(/\s+/g, "_")`: every maximal run of white space becomes one "_". */
  function CollapseSpaces(s: string): (r: string)
    ensures NoSpace(r)
    decreases |s|
  {
    if s == [] then []
    else if IsSpace(s[0]) then "_" + CollapseSpaces(TrimStart(s[1..]))
    else [s[0]] + CollapseSpaces(s[1..])
  }

  /** `.replace(/[^A-Z0-9_\-]/g, "")`: drops every other character. */
  function KeepCodeChars(s: string): (r: string)
    ensures IsCode(r) && |r| <= |s|
  {
    if s == [] then []
    else if IsCodeChar(s[0]) then [s[0]] + KeepCodeChars(s[1..])
    else KeepCodeChars(s[1..])
  }

  /** `sanitizeAgenceCode(code)`; `code == ""` stands for every falsy input. */
  function SanitizeAgenceCode(code: string): (r: string)
    ensures IsCode(r) && NoSpace(r)
  {
    var s := if code == "" then Sentinel else code;
    KeepCodeChars(CollapseSpaces(Upper(Trim(s))))
  }

  lemma {:induction false} CollapseSpacesNoSpace(s: string)
    requires NoSpace(s)
    ensures CollapseSpaces(s) == s
  {
    if s != [] {
      CollapseSpacesNoSpace(s[1..]);
    }
  }

  lemma {:induction false} KeepCodeCharsCode(s: string)
    requires IsCode(s)
    ensures KeepCodeChars(s) == s
  {
    if s != [] {
      KeepCodeCharsCode(s[1..]);
    }
  }

  /** A non-empty code is sanitised to itself. */
  lemma CodeIsFixpoint(r: string)
    requires r != "" && IsCode(r)
    ensures SanitizeAgenceCode(r) == r
  {
    CodeShape(r);
    TrimUntouched(r);
    UpperOfCode(r);
    CollapseSpacesNoSpace(r);
    KeepCodeCharsCode(r);
    assert SanitizeAgenceCode(r) == KeepCodeChars(CollapseSpaces(Upper(Trim(r))));
  }

  lemma CodeShape(r: string)
    requires |r| > 0 && IsCode(r)
    ensures NoSpace(r) && !IsSpace(r[0]) && !IsSpace(r[|r| - 1])
  {
  }

  lemma UpperOfCode(r: string)
    requires IsCode(r)
    ensures Upper(r) == r
  {
    assert forall i :: 0 <= i < |r| ==> UpperChar(r[i]) == r[i];
  }

  /** Every falsy input is sanitised to the sentinel "INCONNU". */
  lemma SanitizeFalsy()
    ensures SanitizeAgenceCode("") == Sentinel
  {
    CodeIsFixpoint(Sentinel);
  }

  /** Sanitising is idempotent on every non-empty result: a produced code is a fixpoint. */
  lemma SanitizeIdempotent(code: string)
    requires SanitizeAgenceCode(code) != ""
    ensures SanitizeAgenceCode(SanitizeAgenceCode(code)) == SanitizeAgenceCode(code)
  {
    CodeIsFixpoint(SanitizeAgenceCode(code));
  }

  lemma {:induction false} KeepCodeCharsNone(s: string)
    requires forall i :: 0 <= i < |s| ==> !IsCodeChar(s[i])
    ensures KeepCodeChars(s) == ""
  {
    if s != [] {
      KeepCodeCharsNone(s[1..]);
    }
  }

  /** A truthy input made only of white space is sanitised to "", not to the sentinel. */
  lemma SanitizeBlank(code: string)
    requires code != "" && AllSpace(code)
    ensures SanitizeAgenceCode(code) == ""
  {
    TrimEmpty(code);
  }

  /** A truthy input without white space and without any character that upper-cases
      into `[A-Z0-9_-]` is sanitised to "" as well. */
  lemma SanitizeNothingKept(code: string)
    requires code != "" && NoSpace(code)
    requires forall i :: 0 <= i < |code| ==> !IsCodeChar(UpperChar(code[i]))
    ensures SanitizeAgenceCode(code) == ""
  {
    TrimUntouched(code);
    UpperKeepsSpace(code);
    CollapseSpacesNoSpace(Upper(code));
    KeepCodeCharsNone(Upper(code));
  }

  /** So sanitising is not idempotent in general: "@@" gives "", which gives the sentinel. */
  lemma SanitizeNotIdempotent()
    ensures SanitizeAgenceCode("@@") == ""
    ensures SanitizeAgenceCode(SanitizeAgenceCode("@@")) == Sentinel
  {
    var at := "@@";
    assert NoSpace(at) && !IsCodeChar(UpperChar(at[0])) && !IsCodeChar(UpperChar(at[1]));
    SanitizeNothingKept(at);
    SanitizeFalsy();
  }

  /** The two-space name is truthy, yet its code is "". */
  lemma SanitizeTwoSpaces()
    ensures SanitizeAgenceCode("  ") == ""
  {
    var sp := "  ";
    assert AllSpace(sp) by { assert IsSpace(sp[0]) && IsSpace(sp[1]); }
    SanitizeBlank(sp);
  }

  /** `.replace(/\/+$/, "")`. */
  function DropTrailingSlashes(s: string): (r: string)
    ensures |r| <= |s| && r == s[..|r|]
    ensures r == [] || r[|r| - 1] != '/'
    ensures forall i :: |r| <= i < |s| ==> s[i] == '/'
  {
    if s != [] && s[|s| - 1] == '/' then DropTrailingSlashes(s[..|s| - 1]) else s
  }

  /** The configured base directory: the first non-empty of KM_FTP_DIR and
      FTP_BASE_DIR (else "/kilometrage"), trimmed, without trailing slashes. */
  function BaseDir(kmFtpDir: string, ftpBaseDir: string): string {
    var raw := if kmFtpDir != "" then kmFtpDir else if ftpBaseDir != "" then ftpBaseDir else DefaultBaseDir;
    DropTrailingSlashes(Trim(raw))
  }

  /** `path.posix.join` on segments that need no normalisation: empty segments
      vanish and the others are separated by one "/". */
  function JoinPath(segments: seq<string>): string {
    if segments == [] then ""
    else if segments[0] == "" then JoinPath(segments[1..])
    else
      var rest := JoinPath(segments[1..]);
      if rest == "" then segments[0] else segments[0] + "/" + rest
  }

  /** `monthlyRemotePath(codeAgence, yearMonth)`. */
  function MonthlyRemotePath(baseDir: string, codeAgence: string, yearMonth: string): string {
    JoinPath([baseDir, SanitizeAgenceCode(codeAgence), yearMonth + ".json"])
  }

  /** `paramsRemotePath()`. */
  function ParamsRemotePath(baseDir: string): string {
    JoinPath([baseDir, "params.json"])
  }

  lemma JoinOne(x: string)
    ensures JoinPath([x]) == x
  {
    assert [x][1..] == [];
  }

  lemma JoinTwo(a: string, x: string)
    requires x != ""
    ensures JoinPath([a, x]) == if a == "" then x else a + "/" + x
  {
    assert [a, x][1..] == [x];
    JoinOne(x);
  }

  lemma JoinThree(a: string, b: string, x: string)
    requires x != ""
    ensures JoinPath([a, b, x]) == JoinPath([a, JoinPath([b, x])])
  {
    assert [a, b, x][1..] == [b, x];
    JoinTwo(b, x);
    JoinTwo(a, JoinPath([b, x]));
  }

  /** The layout `{base}/{CODE}/{YYYY-MM}.json` and `{base}/params.json` (the base
      directory and its "/" vanish when the base is empty). */
  lemma RemotePathLayout(baseDir: string, codeAgence: string, yearMonth: string)
    requires SanitizeAgenceCode(codeAgence) != ""
    ensures MonthlyRemotePath(baseDir, codeAgence, yearMonth)
         == BasePrefix(baseDir) + SanitizeAgenceCode(codeAgence) + "/" + yearMonth + ".json"
    ensures ParamsRemotePath(baseDir) == BasePrefix(baseDir) + "params.json"
  {
    var code := SanitizeAgenceCode(codeAgence);
    JoinLayout(baseDir, code, yearMonth + ".json");
    Regroup(BasePrefix(baseDir), code, "/", yearMonth, ".json");
    JoinTwo(baseDir, "params.json");
  }

  lemma JoinLayout(baseDir: string, dir: string, file: string)
    requires dir != "" && file != ""
    ensures JoinPath([baseDir, dir, file]) == BasePrefix(baseDir) + dir + "/" + file
  {
    JoinThree(baseDir, dir, file);
    JoinTwo(dir, file);
    JoinTwo(baseDir, dir + "/" + file);
    assert BasePrefix(baseDir) + (dir + "/" + file) == BasePrefix(baseDir) + dir + "/" + file;
  }

  /** Joining a base, a directory (possibly empty) and a file name. */
  lemma JoinFile(baseDir: string, dir: string, file: string)
    requires file != ""
    ensures JoinPath([baseDir, dir, file]) == BasePrefix(baseDir) + BasePrefix(dir) + file
  {
    JoinThree(baseDir, dir, file);
    JoinTwo(dir, file);
    JoinTwo(baseDir, BasePrefix(dir) + file);
    assert BasePrefix(baseDir) + (BasePrefix(dir) + file) == BasePrefix(baseDir) + BasePrefix(dir) + file;
  }

  /** Different months of one agency are different files. */
  lemma MonthlyPathsDistinct(baseDir: string, codeAgence: string, ym1: string, ym2: string)
    requires ym1 != ym2
    ensures MonthlyRemotePath(baseDir, codeAgence, ym1) != MonthlyRemotePath(baseDir, codeAgence, ym2)
  {
    var code := SanitizeAgenceCode(codeAgence);
    var prefix := BasePrefix(baseDir) + BasePrefix(code);
    JoinFile(baseDir, code, ym1 + ".json");
    JoinFile(baseDir, code, ym2 + ".json");
    DistinctMiddles(prefix, ym1, ym2, ".json");
  }

  lemma DistinctMiddles(p: string, x: string, y: string, q: string)
    requires x != y
    ensures p + (x + q) != p + (y + q)
  {
    MiddleOf(p, x, q);
    MiddleOf(p, y, q);
  }

  lemma MiddleOf(p: string, x: string, q: string)
    ensures |p + (x + q)| == |p| + |x| + |q| && (p + (x + q))[|p|..|p| + |x|] == x
  {
  }

  function BasePrefix(baseDir: string): string {
    if baseDir == "" then "" else baseDir + "/"
  }

  /** `toYearMonth(dateStr)`; the clock's current "YYYY-MM" is a parameter. */
  function ToYearMonth(dateStr: string, currentYearMonth: string): (r: string)
    ensures |Trim(dateStr)| >= 7 ==> r == Trim(dateStr)[..7]
    ensures |Trim(dateStr)| < 7 ==> r == currentYearMonth
    ensures |currentYearMonth| == 7 ==> |r| == 7
  {
    var s := Trim(dateStr);
    if |s| >= 7 then s[..7] else currentYearMonth
  }

  /** The write-queue key `appendRecord` uses: `sanitize(codeAgence || agence) + "/" + toYearMonth(date)`. */
  function MonthlyLockKey(codeAgence: string, agence: string, date: string, currentYearMonth: string): string {
    SanitizeAgenceCode(if codeAgence != "" then codeAgence else agence)
      + "/" + ToYearMonth(date, currentYearMonth)
  }

  /** The file `appendRecord` rewrites: `monthlyRemotePath` applied to the code that was
      already sanitised, which sanitises it a second time. */
  function AppendPath(baseDir: string, codeAgence: string, agence: string, date: string, currentYearMonth: string): string {
    MonthlyRemotePath(baseDir, SanitizeAgenceCode(if codeAgence != "" then codeAgence else agence),
                      ToYearMonth(date, currentYearMonth))
  }

  /** As written, one file can have two lock keys: a truthy code that sanitises to ""
      (such as "@@", see `SanitizeNotIdempotent`) gets the key "/" + month, while its
      file is the sentinel's file, whose key is "INCONNU/" + month. Two appends to that
      file then run in different queues. */
  lemma LockKeyNotPerFile(baseDir: string, bad: string, date: string, currentYearMonth: string)
    requires bad != "" && SanitizeAgenceCode(bad) == ""
    ensures MonthlyLockKey(bad, "", date, currentYearMonth) == "/" + ToYearMonth(date, currentYearMonth)
    ensures MonthlyLockKey(Sentinel, "", date, currentYearMonth) == Sentinel + "/" + ToYearMonth(date, currentYearMonth)
    ensures MonthlyLockKey(bad, "", date, currentYearMonth) != MonthlyLockKey(Sentinel, "", date, currentYearMonth)
    ensures AppendPath(baseDir, bad, "", date, currentYearMonth) == AppendPath(baseDir, Sentinel, "", date, currentYearMonth)
  {
    CodeIsFixpoint(Sentinel);
    SanitizeFalsy();
    TwoKeysOneFile(baseDir, bad, "", Sentinel, date, currentYearMonth);
  }

  /** `bad` sanitises to the empty code `e`, which the path sanitises again to `good`. */
  lemma TwoKeysOneFile(baseDir: string, bad: string, e: string, good: string, date: string, currentYearMonth: string)
    requires bad != "" && |e| == 0 && SanitizeAgenceCode(bad) == e
    requires good != "" && SanitizeAgenceCode(good) == good && SanitizeAgenceCode(e) == good
    ensures MonthlyLockKey(bad, "", date, currentYearMonth) == "/" + ToYearMonth(date, currentYearMonth)
    ensures MonthlyLockKey(good, "", date, currentYearMonth) == good + "/" + ToYearMonth(date, currentYearMonth)
    ensures MonthlyLockKey(bad, "", date, currentYearMonth) != MonthlyLockKey(good, "", date, currentYearMonth)
    ensures AppendPath(baseDir, bad, "", date, currentYearMonth) == AppendPath(baseDir, good, "", date, currentYearMonth)
  {
    var ym := ToYearMonth(date, currentYearMonth);
    KeysOf(baseDir, bad, date, currentYearMonth);
    KeysOf(baseDir, good, date, currentYearMonth);
    EmptyCodeKey(e, ym);
    assert |e + "/" + ym| < |good + "/" + ym|;
  }

  lemma EmptyCodeKey(e: string, ym: string)
    requires |e| == 0
    ensures e + "/" + ym == "/" + ym
  {
    assert e + "/" == "/";
  }

  /** The lock key and the file of an append with agency code `code` and no agency name. */
  lemma KeysOf(baseDir: string, code: string, date: string, currentYearMonth: string)
    requires code != ""
    ensures MonthlyLockKey(code, "", date, currentYearMonth) == SanitizeAgenceCode(code) + "/" + ToYearMonth(date, currentYearMonth)
    ensures AppendPath(baseDir, code, "", date, currentYearMonth)
         == MonthlyRemotePath(baseDir, SanitizeAgenceCode(code), ToYearMonth(date, currentYearMonth))
  {
  }

  /** "@@" is such a code. */
  lemma LockKeyNotPerFileExample(baseDir: string, date: string, currentYearMonth: string)
    ensures MonthlyLockKey("@@", "", date, currentYearMonth) != MonthlyLockKey(Sentinel, "", date, currentYearMonth)
    ensures AppendPath(baseDir, "@@", "", date, currentYearMonth) == AppendPath(baseDir, Sentinel, "", date, currentYearMonth)
  {
    SanitizeNotIdempotent();
    LockKeyNotPerFile(baseDir, "@@", date, currentYearMonth);
  }

  /** A date without surrounding white space gives its first seven characters. */
  lemma MonthOfTrimmed(date: string, currentYearMonth: string)
    requires |date| >= 7 && !IsSpace(date[0]) && !IsSpace(date[|date| - 1])
    ensures ToYearMonth(date, currentYearMonth) == date[..7]
  {
    TrimUntouched(date);
  }

  /** The key that names the file actually written: the directory `monthlyRemotePath`
      derives, then the month. */
  function FileLockKey(codeAgence: string, agence: string, date: string, currentYearMonth: string): (r: string)
    ensures StartsWith(r, AppendDir(codeAgence, agence) + "/")
  {
    AppendDir(codeAgence, agence) + "/" + ToYearMonth(date, currentYearMonth)
  }

  /** The directory `appendRecord` writes to: the code sanitised twice, never empty. */
  function AppendDir(codeAgence: string, agence: string): (r: string)
    ensures r != "" && IsCode(r)
  {
    var once := SanitizeAgenceCode(if codeAgence != "" then codeAgence else agence);
    if once == "" then
      SanitizeFalsy(); SanitizeAgenceCode(once)
    else
      CodeIsFixpoint(once); SanitizeAgenceCode(once)
  }

  /** With that key, two appends share a queue exactly when they rewrite the same file. */
  lemma FileLockKeyPerFile(baseDir: string, c1: string, a1: string, d1: string,
                           c2: string, a2: string, d2: string, currentYearMonth: string)
    ensures FileLockKey(c1, a1, d1, currentYearMonth) == FileLockKey(c2, a2, d2, currentYearMonth)
        <==> AppendPath(baseDir, c1, a1, d1, currentYearMonth) == AppendPath(baseDir, c2, a2, d2, currentYearMonth)
  {
    AppendPathLayout(baseDir, c1, a1, d1, currentYearMonth);
    AppendPathLayout(baseDir, c2, a2, d2, currentYearMonth);
    Enclosed(BasePrefix(baseDir), FileLockKey(c1, a1, d1, currentYearMonth),
             FileLockKey(c2, a2, d2, currentYearMonth), ".json");
  }

  /** The file `appendRecord` rewrites is the corrected key, under the base, plus ".json". */
  lemma AppendPathLayout(baseDir: string, c: string, a: string, d: string, currentYearMonth: string)
    ensures AppendPath(baseDir, c, a, d, currentYearMonth)
         == BasePrefix(baseDir) + FileLockKey(c, a, d, currentYearMonth) + ".json"
  {
    var ym := ToYearMonth(d, currentYearMonth);
    var dir := AppendDir(c, a);
    assert AppendPath(baseDir, c, a, d, currentYearMonth) == JoinPath([baseDir, dir, ym + ".json"]);
    JoinLayout(baseDir, dir, ym + ".json");
    assert FileLockKey(c, a, d, currentYearMonth) == dir + "/" + ym;
    Regroup(BasePrefix(baseDir), dir, "/", ym, ".json");
  }

  lemma Regroup(p: string, x: string, sep: string, y: string, q: string)
    ensures p + x + sep + (y + q) == p + (x + sep + y) + q
  {
  }

  /** Strings with a common prefix and suffix are equal exactly when their middles are. */
  lemma Enclosed(p: string, x: string, y: string, q: string)
    ensures p + x + q == p + y + q <==> x == y
  {
    if p + x + q == p + y + q {
      assert |x| == |y|;
      assert x == (p + x + q)[|p|..|p| + |x|];
      assert y == (p + y + q)[|p|..|p| + |y|];
    }
  }

  /** The registry's lock key never equals a monthly lock key, as written or corrected,
      so the registry and a month never share a queue. */
  lemma ParamsKeyIsolated(codeAgence: string, agence: string, date: string, currentYearMonth: string)
    ensures MonthlyLockKey(codeAgence, agence, date, currentYearMonth) != ParamsLockKey
    ensures FileLockKey(codeAgence, agence, date, currentYearMonth) != ParamsLockKey
  {
    var code := SanitizeAgenceCode(if codeAgence != "" then codeAgence else agence);
    var ym := ToYearMonth(date, currentYearMonth);
    assert MonthlyLockKey(codeAgence, agence, date, currentYearMonth) == code + "/" + ym;
    assert FileLockKey(codeAgence, agence, date, currentYearMonth) == AppendDir(codeAgence, agence) + "/" + ym;
    SlashedNotParams(code, ym);
    SlashedNotParams(AppendDir(codeAgence, agence), ym);
  }

  lemma SlashedNotParams(a: string, b: string)
    ensures a + "/" + b != ParamsLockKey
  {
    assert (a + "/" + b)[|a|] == '/';
    assert '/' !in ParamsLockKey;
  }

  /** A monthly file never is the registry file: the month designator has seven characters. */
  lemma MonthlyPathNotParams(baseDir: string, codeAgence: string, yearMonth: string)
    requires |yearMonth| == 7
    ensures MonthlyRemotePath(baseDir, codeAgence, yearMonth) != ParamsRemotePath(baseDir)
  {
    var code := SanitizeAgenceCode(codeAgence);
    var file := yearMonth + ".json";
    JoinThree(baseDir, code, file);
    JoinTwo(code, file);
    JoinTwo(baseDir, JoinPath([code, file]));
    JoinTwo(baseDir, "params.json");
    assert |JoinPath([code, file])| >= 12;
  }
}
