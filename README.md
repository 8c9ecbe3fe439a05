# A verified model of the mileage store, the mail helpers and the logins of the Durand site

This project models in Dafny the parts of the Durand web server and site that decide who
may do what and what ends up stored:

- **Mileage store** (`routes/kilometrage.js`). Drivers' mileage readings and absences are
  kept as JSON arrays on an FTP server, one file per agency and month
  (`{base}/{CODE}/{YYYY-MM}.json`), next to a registry of tours (`{base}/params.json`).
  Each write is a read-modify-write of a whole file, serialised per file by a map of
  promise chains (`writeQueues`, `withFileLock`). The model covers agency-code
  sanitising, path construction, the read classification of `ftpReadJson`, the queue, the
  `appendRecord`/`updateParams` jobs and the handlers `/save`, `/absent`, `/newid`,
  `/params`, `/data` and `/resume`.
- **Workshop mails** (`atelier/email-sender.js`). It models the HTML escaping
  (`escapeHtml`, `nl2br`) and the choice of recipient (`getEmailForService`). It also
  models the guards that decide whether `sendNewRequestEmail` and `sendPieceReturnedEmail`
  send anything, and to whom.
- **Browser login memory** (`assets/auth.js`). It models the `localStorage` flag and
  timestamp with their 30-day lifetime and the 10-minute throttle of the server session
  check. It also models `requireAuth` (only a 401 logs the browser out) and the
  check of the `redirect` parameter, together with what a browser makes of the URLs that
  check lets through.
- **Dossier-tracking login** (`suivi-dossier/index.js`). A password selects one of five
  roles (the first configured match wins), the role gives the session payload, and
  `/api/login` checks its guards in a fixed order.
- **Mail-log admin gate** (`routes/mail-logs.js`). It models the token extraction from
  `x-admin-token` or `Authorization: Bearer`, the UTF-8 byte comparison, the 503/401 gate,
  and the bounds on `limit` and `q`.

The modules follow the source files:

- `km_keys` covers code sanitising, paths and lock keys.
- `km_queue` covers `writeQueues`.
- `km_ftp` covers `ftpReadJson`, `ftpWriteJson` and `readMonthlyRecords`.
- `km_records` covers the checks of `/save` and `/absent`.
- `km_registry` covers `/params` filtering and the `/newid` transform.
- `km_reads` covers the `/data`, `/resume` and `/params` answers.
- `km_store` covers the running store: a class with its FTP server, its queues and its
  jobs.
- `atelier_mail`, `site_auth`, `suivi_auth` and `mail_logs` model the other four files.
- `js_text`, `json_value`, `seq_filter`, `utf8` and `optional` model the JavaScript
  string and JSON operations that the source relies on.

Things the source takes from outside are parameters of the model:

- the clock (`Date.now()` and the current month or year);
- environment variables;
- transport errors of FTP and of the session store;
- `encodeURIComponent` of the destination.

Concurrency is modelled as explicit traces of enqueue and settle events.

Where the code and its accompanying description disagree, the model follows the code:

- The sentinel for a missing agency code is `"INCONNU"`.
- Sanitising is not idempotent: a truthy code that sanitises to `""` becomes `"INCONNU"`
  when it is sanitised again.
- A failing write rejects every operation already chained behind it on the same key.
  The operations skip their own work until the chain is emptied.
- `/data` reads the twelve months one after the other. A month whose read throws counts
  as empty.

Request bodies and stored rows are whatever JSON they hold. `String(v)` and `Number(v)`
throw a TypeError on an object that carries its own `toString` property: JSON cannot make
it callable, and the inherited `valueOf` returns the object itself. An array throws when
one of its elements does. `JsonValue.StrThrows` states when this happens. The model
follows every conversion of the modelled handlers and answers what the source answers
when one throws: a 500 inside a handler's `try`, a rejected registry job, an uncaught
error at `/api/login`, or, in the mail helpers, a rejection before the `try` and a
`{ sent: false }` inside it.

## Model

| member | source | states |
|---|---|---|
| KmKeys.SanitizeAgenceCode | routes/kilometrage.js:79-85 | the result holds only `[A-Z0-9_-]` characters and no white space |
| KmKeys.CodeIsFixpoint | routes/kilometrage.js:79-85 | a non-empty code of `[A-Z0-9_-]` characters sanitises to itself |
| KmKeys.SanitizeFalsy | routes/kilometrage.js:80 | a falsy code becomes the sentinel "INCONNU" |
| KmKeys.SanitizeIdempotent | routes/kilometrage.js:79-85 | sanitising a non-empty result again changes nothing |
| KmKeys.SanitizeBlank | routes/kilometrage.js:81-84 | a truthy all-white-space code sanitises to "", not to the sentinel |
| KmKeys.SanitizeNothingKept | routes/kilometrage.js:81-84 | a truthy code with no space and no character that upper-cases into the code alphabet sanitises to "" |
| KmKeys.SanitizeNotIdempotent | routes/kilometrage.js:79-85 | "@@" sanitises to "", and "" sanitises to the sentinel |
| KmKeys.SanitizeTwoSpaces | routes/kilometrage.js:79-85 | "  " is truthy yet sanitises to "" |
| KmKeys.DropTrailingSlashes | routes/kilometrage.js:68-69 | the base directory is the configured one without its trailing "/" characters |
| KmKeys.RemotePathLayout | routes/kilometrage.js:88-98 | monthly files are `{base}/{CODE}/{YYYY-MM}.json` and the registry is `{base}/params.json` |
| KmKeys.MonthlyPathsDistinct | routes/kilometrage.js:88-92 | two different months of one agency are two different files |
| KmKeys.MonthlyPathNotParams | routes/kilometrage.js:88-98 | a monthly file is never the registry file |
| KmKeys.ToYearMonth | routes/kilometrage.js:101-105 | the first seven characters of the trimmed date, else the current month |
| KmKeys.MonthOfTrimmed | routes/kilometrage.js:101-105 | a date with no surrounding white space gives its first seven characters |
| KmKeys.LockKeyNotPerFile | routes/kilometrage.js:255-268 | as written, a truthy code that sanitises to "" gets a lock key other than the sentinel's, although both rewrite the same file |
| KmKeys.TwoKeysOneFile | routes/kilometrage.js:255-268 | the general form: one file, two different lock keys |
| KmKeys.LockKeyNotPerFileExample | routes/kilometrage.js:255-268 | "@@" and "INCONNU" get different keys but rewrite the same file |
| KmKeys.FileLockKey | routes/kilometrage.js:256-258 | the corrected key starts with the directory that the path uses |
| KmKeys.AppendDir | routes/kilometrage.js:256-259 | the directory `appendRecord` writes to is never empty and is a code |
| KmKeys.FileLockKeyPerFile | routes/kilometrage.js:255-268 | with the corrected key, two appends share a queue exactly when they rewrite the same file |
| KmKeys.AppendPathLayout | routes/kilometrage.js:256-259 | the rewritten file is the base, the corrected key and ".json" |
| KmKeys.ParamsKeyIsolated | routes/kilometrage.js:258-272 | the registry's lock key never equals a monthly key, whether as written or corrected |
| KmQueue.Enqueue | routes/kilometrage.js:133-145 | `withFileLock` appends the operation to the key's chain, starts a fresh chain for an idle key, and leaves other keys alone |
| KmQueue.Settle | routes/kilometrage.js:135-143 | the head settles; the entry is deleted when it was the tail, else the next head inherits the settled promise's rejection; other keys are untouched |
| KmQueue.FifoPerKey | routes/kilometrage.js:124-145 | the operations of each key settle in the order they were enqueued, and what has not settled is still queued in that order |
| KmQueue.RunValid | routes/kilometrage.js:124-145 | no trace leaves an entry with an empty chain |
| KmQueue.Drained | routes/kilometrage.js:140-143 | once every queued operation has settled, the map is empty |
| KmQueue.OtherKeysUntouched | routes/kilometrage.js:121-145 | events on other keys never change the chain of a key |
| KmQueue.PoisonPropagates | routes/kilometrage.js:135-138 | while a chain carries a rejection, every operation settling there skips its work and rejects with that error |
| KmQueue.FailureIsCarried | routes/kilometrage.js:135-138 | a failing operation with successors hands its rejection to the next head |
| KmQueue.FreshChainRuns | routes/kilometrage.js:135-143 | once an entry is deleted, the next operation on the key runs its work |
| KmQueue.WriteQueues.WithFileLock | routes/kilometrage.js:133-145 | the chain map becomes `Enqueue` of the old one; the operation starts at once exactly when the key was idle |
| KmQueue.WriteQueues.Complete | routes/kilometrage.js:135-143 | the settlement and the new map are those of `SettleResult` and `Settle` |
| KmQueue.WriteQueues.PendingKeys | routes/kilometrage.js:570 | `writeQueues.size` is the number of keys, 0 exactly when the map is empty |
| KmFtp.ClassifyRead | routes/kilometrage.js:195-217 | blank, unparsable and absent files read as null; only any other download error is rethrown, with its own message |
| KmFtp.ReadFrom | routes/kilometrage.js:189-224 | a read with no transport fault never throws |
| KmFtp.ReadThrowsOnlyOnFaults | routes/kilometrage.js:189-224 | a read throws exactly on a connection error or a download error that is not about an absent file |
| KmFtp.ReadAfterWrite | routes/kilometrage.js:189-238 | what `ftpWriteJson` uploads is read back unchanged |
| KmFtp.ReadOtherPath | routes/kilometrage.js:189-238 | writing one path leaves what every other path reads unchanged |
| KmFtp.ReadSameFile | routes/kilometrage.js:189-224 | a read depends only on the file at its path |
| KmFtp.AbsentReadsNull | routes/kilometrage.js:209-213 | a missing file reads as null, and as a month with no records |
| KmFtp.ReadMonthlyRecords | routes/kilometrage.js:245-249 | it fails exactly when `ftpReadJson` of the month's file fails |
| KmFtp.AfterFailedWrite | routes/kilometrage.js:227-238 | after a failed upload only the target file may differ, and it then holds what the transfer left |
| KmFtp.FtpServer.WriteJson | routes/kilometrage.js:227-238 | a successful upload replaces exactly one file; a failed one reports its error and leaves every other file as it was, its own file either unchanged or holding what the interrupted transfer left |
| KmRecords.Prop | routes/kilometrage.js:387-390 | a falsy body has no properties |
| KmRecords.SaveId | routes/kilometrage.js:456 | the stored id is null, or trimmed and non-blank |
| KmRecords.SaveRejects | routes/kilometrage.js:435-479 | `/save` rejects exactly bodies without a truthy agence or date (that check first), or whose km converts without throwing to NaN or a negative number; it throws (500) exactly when those checks pass and `Number(km)` throws, or km is valid and a converted property of the record throws |
| KmRecords.SaveRecordShape | routes/kilometrage.js:454-469 | the stored reading has the given non-negative km, a lower-case trimmed horaire, a null-or-trimmed id and at most ten date characters |
| KmRecords.SaveRecordFields | routes/kilometrage.js:454-469 | the fields of the built record, field by field |
| KmRecords.AbsentRejects | routes/kilometrage.js:385-424 | `/absent` rejects exactly bodies without a truthy agence, codeTournee or date, and otherwise throws (500) exactly when a converted property of its record throws |
| KmRecords.AbsentRecordShape | routes/kilometrage.js:399-414 | the stored absence has neither km nor horaire |
| KmRegistry.ParamsAnswer | routes/kilometrage.js:295-301 | without a filter every row is answered; with one, the answer is, in file order, exactly the rows whose agence or codeAgence equals it ignoring case, each as often as the file holds it; with a filter it fails exactly when the filter throws on a row (a null row, or a converted agence or codeAgence that throws), so always on a null row |
| KmRegistry.LastSegment | routes/kilometrage.js:332 | `split("-").pop()` holds no "-" and is a suffix of the id |
| KmRegistry.SegmentAfter | routes/kilometrage.js:332 | after a prefix ending in "-", the last segment is what follows |
| KmRegistry.MaxOf | routes/kilometrage.js:330-334 | the maximum is at least every number and is 0 or one of them |
| KmRegistry.ComputeMaxSeq | routes/kilometrage.js:330-334 | the loop computes `MaxSeq` of the tour's rows |
| KmRegistry.NewIdSeq | routes/kilometrage.js:335 | the new id's sequence number reads back as maxSeq + 1 |
| KmRegistry.NewIdFresh | routes/kilometrage.js:330-335 | the new id differs from the id of every row it was computed from |
| KmRegistry.StampRows | routes/kilometrage.js:346-355 | the map keeps the length; the tour's rows of the agency get `dernierRemplacement`, and the others are unchanged |
| KmRegistry.RunNewId | routes/kilometrage.js:324-370 | the handler's loop and push compute `NewIdTransform` |
| KmRegistry.NewIdFailures | routes/kilometrage.js:324-370 | the transform fails exactly when the updater throws: on the body's codeTournee or agence, on a null row, or on a row property it converts; always on a null row, and with a body and rows holding no throwing value only then |
| KmRegistry.NewIdAppendsRow | routes/kilometrage.js:358-367 | otherwise the registry grows by one row, last, carrying the new id, the trimmed tour code and no replacement date |
| KmRegistry.NewRowFields | routes/kilometrage.js:358-367 | the pushed row has exactly the eight properties: agence, codeAgence and tournee from the reference row when truthy (else the body's agence for both agency fields and "" for tournee), the trimmed tour code, empty carrier fields, the new id and a null replacement date |
| KmRegistry.NewIdStampsRows | routes/kilometrage.js:346-355 | earlier rows keep their places; only the tour's rows of the agency change, gaining the date and keeping every other property |
| KmRegistry.NewIdUnused | routes/kilometrage.js:324-370 | the new id is used by no row of the tour |
| KmRegistry.TourIdsDiffer | routes/kilometrage.js:329-335 | no row of the tour carries the id handed out for it |
| KmReads.YearOf | routes/kilometrage.js:489-490 | the trimmed year query, else the current year |
| KmReads.ReadYear | routes/kilometrage.js:486-514 | 400 without an agency; otherwise the records of months 1 to 12, in month order, a month whose read throws adding nothing |
| KmReads.ReadMonths | routes/kilometrage.js:498-508 | the loop concatenates, in month order, the records of every month whose read does not throw |
| KmReads.MonthPathsDistinct | routes/kilometrage.js:498-508 | the twelve reads are of twelve different files |
| KmReads.FailedMonthIsAbsent | routes/kilometrage.js:498-508 | a month whose read throws gives the same answer as a month with no file |
| KmReads.SingleMonthAnswer | routes/kilometrage.js:498-508 | with only one month's file, the answer is that file's array |
| KmReads.ResumeRowsAreKept | routes/kilometrage.js:537-548 | the four chained filters are one filter by `Kept` |
| KmReads.ResumeRefusals | routes/kilometrage.js:521-555 | 400 exactly without an agency or a date; the only other refusal is the 500 of a failed read or of a row the filters throw on |
| KmReads.ResumeAnswer | routes/kilometrage.js:537-550 | the answer is, in file order, exactly the month's rows that pass every filter given, each as often as the file holds it |
| KmReads.RowsOfResume | routes/kilometrage.js:537-550 | an answered row is in the month's records and is kept, every kept record is answered, and as often as it is stored |
| KmReads.ResumeReadsOneFile | routes/kilometrage.js:533-535 | `/resume` reads only the month of its date |
| KmReads.ParamsAnswerFromFile | routes/kilometrage.js:289-308 | without a registry file, no rows; with one, a 500 exactly when the agency filter throws on a row, else the rows `ParamsForAgency` selects |
| KmStore.RunJobFrame | routes/kilometrage.js:255-279 | a job touches only its own file: one failing before its upload writes nothing, one whose upload fails leaves there what the upload left, and a successful one writes its array |
| KmStore.InterruptedUploadLosesMonth | routes/kilometrage.js:195-266 | an upload that fails after leaving an unparsable partial file makes the next append rewrite the month with its own record alone |
| KmStore.AppendAddsRecord | routes/kilometrage.js:260-266 | an append leaves what it read, with the record added last |
| KmStore.SerialAppendsKeepBoth | routes/kilometrage.js:111-119 | two serialised appends keep both records, in order |
| KmStore.RacingAppendsLoseOne | routes/kilometrage.js:111-119 | two appends that both read before either writes lose the first record |
| KmStore.AsWrittenAppendsRace | routes/kilometrage.js:255-268 | as written, an append with a code that sanitises to "" and one with the code "INCONNU" rewrite one file under two keys, so with both keys idle both start at once |
| KmStore.RenewIdRun | routes/kilometrage.js:271-279 | without transport errors the registry job succeeds exactly when its updater does not throw, and then stores the transform's rows and answers its id |
| KmStore.SavedRecordIsRead | routes/kilometrage.js:255-268 | a saved record is found by `readMonthlyRecords` under its sanitised code and month |
| KmStore.MonthAppend | routes/kilometrage.js:245-268 | an append to a month adds its record to what that month reads |
| KmStore.Store.Schedule | routes/kilometrage.js:133-145 | the job gets a fresh operation number and is enqueued under its key |
| KmStore.Store.AppendRecord | routes/kilometrage.js:255-268 | `appendRecord` queues the append of the record to its month file under the key `sanitize(codeAgence \|\| agence)/month`, as a fresh operation |
| KmStore.Store.UpdateParams | routes/kilometrage.js:271-279 | `updateParams` queues the registry job under "_params" |
| KmStore.Store.Save | routes/kilometrage.js:435-479 | 400 with the check's message when the checks reject and 500 with "Erreur enregistrement kilométrage" when building the record throws, both with nothing queued and no operation number used; otherwise the record's append is queued under its lock key as the next operation |
| KmStore.Store.Absent | routes/kilometrage.js:385-424 | 400 with the check's message when the checks of `/absent` reject and 500 with "Erreur déclaration d'absence" when building the record throws, both with nothing queued; otherwise the absence's append is queued under its lock key as the next operation |
| KmStore.Store.NewId | routes/kilometrage.js:315-378 | 400 without a truthy agence or codeTournee, with nothing queued and no operation number used; otherwise the registry job is queued under "_params" as the next operation |
| KmStore.Store.Perform | routes/kilometrage.js:255-279 | one run reads, computes and writes as `RunJob` says |
| KmStore.Store.RunNext | routes/kilometrage.js:133-145 | the head of a key settles: skipped with the carried rejection, or run against the server |
| AtelierMail.ReplaceAll | atelier/email-sender.js:6-10 | a global one-character replace leaves none of that character unless the replacement holds it |
| AtelierMail.EscapeIsEach | atelier/email-sender.js:4-11 | because "&" is replaced first, the chain escapes each character exactly once |
| AtelierMail.EscapeShape | atelier/email-sender.js:4-11 | no raw `<`, `>`, `"` or `'` is left, and every "&" starts one of the five entities |
| AtelierMail.EscapeLength | atelier/email-sender.js:4-11 | the length grows by 4, 3, 3, 5 and 4 for each `&`, `<`, `>`, `"` and `'` |
| AtelierMail.EscapeRoundTrip | atelier/email-sender.js:4-11 | decoding the five entities gives the text back |
| AtelierMail.EscapeHtmlNullish | atelier/email-sender.js:5 | null and undefined escape to "" |
| AtelierMail.Nl2br | atelier/email-sender.js:13-15 | no newline is left |
| AtelierMail.Nl2brLength | atelier/email-sender.js:13-15 | each newline of the escaped text becomes `<br>`, and nothing else changes count |
| AtelierMail.RecipientIsConfigured | atelier/email-sender.js:18-45 | the recipient is one of the configured addresses, and it is "" exactly when neither the service's nor the culasse address is set |
| AtelierMail.LookupIgnoresCaseAndSpace | atelier/email-sender.js:19 | case and surrounding white space do not change the recipient |
| AtelierMail.InjectionSpellingsAgree | atelier/email-sender.js:33-38 | both spellings of each injection service reach the same address |
| AtelierMail.UnknownServiceFallsBack | atelier/email-sender.js:44 | an unknown service goes to the culasse address |
| AtelierMail.DossierNoPadded | atelier/email-sender.js:75 | the dossier number is zero-padded to at least five characters and never cut |
| AtelierMail.NewRequestGuards | atelier/email-sender.js:60-260 | without SMTP nothing is read or sent; with it, the call throws exactly on a null case, a service that does not convert, or, once an address is found, a conversion before the `try` (dossier number, date, comments that are not a string, the culasse or injection details); the mail is handed to `sendMail` exactly when none of these nor a conversion inside the `try` throws, and then to the service's address |
| AtelierMail.PieceReturnedGuards | atelier/email-sender.js:263-361 | without SMTP nothing is read or sent; with it, the call throws exactly on a null case or a dossier number that does not convert, and the mail is handed to `sendMail` exactly when the client's address is truthy and the service, client and store convert, and then to that address |
| SiteAuth.Cleared | assets/auth.js:55-61 | the three login keys are removed, and every other key is kept with its value |
| SiteAuth.LocalStorage.IsAuthed | assets/auth.js:28-46 | the answer is `Authed`; an expired login is cleared on the way, and the store is otherwise unchanged |
| SiteAuth.LocalStorage.SetAuthed | assets/auth.js:48-53 | the flag is "1" and the timestamp is now |
| SiteAuth.LocalStorage.ClearAuthed | assets/auth.js:55-61 | the store becomes `Cleared` of the old one |
| SiteAuth.LocalStorage.ShouldCheckSession | assets/auth.js:63-71 | reads the throttle and changes nothing |
| SiteAuth.LocalStorage.MarkSessionChecked | assets/auth.js:73-77 | the last-check time is now |
| SiteAuth.LocalStorage.RequireAuth | assets/auth.js:80-111 | without a login, go to the login page; when the throttle is quiet, stay; otherwise only a 401 clears the login and redirects, and a network error changes nothing |
| SiteAuth.AuthedExactly | assets/auth.js:28-46 | authenticated exactly with flag "1", a positive timestamp and at most 30 days elapsed |
| SiteAuth.ExpiryClears | assets/auth.js:37-40 | an expired login is refused and, once cleared, stays logged out |
| SiteAuth.SetAuthedRoundTrip | assets/auth.js:28-53 | after `setAuthed` at t, `isAuthed` holds exactly up to t + 30 days |
| SiteAuth.ClearFrame | assets/auth.js:55-61 | only the three keys vanish, and clearing twice is clearing once |
| SiteAuth.ThrottleExactly | assets/auth.js:63-71 | check exactly when no last-check time is stored or more than 10 minutes have passed |
| SiteAuth.ThrottleUnset | assets/auth.js:65-66 | with no last-check time stored, the session is checked |
| SiteAuth.MarkSilences | assets/auth.js:63-77 | marking at t silences the check for exactly 10 minutes |
| SiteAuth.OnlyUnauthorizedLogsOut | assets/auth.js:98-110 | only a 401 logs out; any other status or a network error keeps the login |
| SiteAuth.RedirectTarget | assets/auth.js:143-152 | a followed target is the query value, a single-"/" path with no NUL and no http(s) scheme |
| SiteAuth.RedirectTargetExactly | assets/auth.js:143-152 | a value is followed exactly when it starts with one "/" and holds no NUL |
| SiteAuth.AfterLogin | assets/auth.js:154-158 | the target when there is one, else the prefixed index page |
| SiteAuth.AfterLoginTargetShape | assets/auth.js:154-158 | after login the page opened is the index page or a value starting with a single "/" and holding no NUL |
| SiteAuth.RedirectLeavesSite | assets/auth.js:143-158 | as written, `/\evil.com` and `/<tab>/evil.com` are followed, and a browser reads both as the host evil.com |
| SiteAuth.SafeRedirectTarget | assets/auth.js:143-152 | the corrected check follows only values the check as written follows |
| SiteAuth.SafeRedirectStaysOnSite | assets/auth.js:143-158 | a target the corrected check follows is read by the browser as itself, a path starting with a single "/", so the browser stays on the site |
| SuiviAuth.Name | suivi-dossier/index.js:35-39 | role names are upper-case and non-empty |
| SuiviAuth.FirstMatch | suivi-dossier/index.js:31-41 | the reference: a granted role has the typed password, and with no match no role has it |
| SuiviAuth.ResolveIsFirstMatch | suivi-dossier/index.js:31-41 | the if-chain is the first match in the order STE, BG, CHASSE, LIMITED, ADMIN |
| SuiviAuth.BlankGetsNoRole | suivi-dossier/index.js:32-33 | a blank password gets no role |
| SuiviAuth.GrantedRole | suivi-dossier/index.js:31-41 | a granted role is configured with the trimmed password, and no earlier role has it |
| SuiviAuth.NoMatchMeansNoRole | suivi-dossier/index.js:31-41 | no role is refused while some configured role has the typed password |
| SuiviAuth.PaddedPasswordUnreachable | suivi-dossier/index.js:32-39 | a configured password with white space at either end can never be typed |
| SuiviAuth.PayloadOfRole | suivi-dossier/index.js:43-50 | the payload names the role; only LIMITED is limited and sees "ALL" |
| SuiviAuth.PayloadShape | suivi-dossier/index.js:43-50 | the view mode is never "LIMITED", and the payload ignores the case of the role |
| SuiviAuth.LoginGuards | suivi-dossier/index.js:31-101 | 503 without any password, then an uncaught error (500) exactly when the password does not convert, then 401 without a role, all before the session is touched; a login succeeds exactly with a password that converts and resolves to a role and a working session store |
| SuiviAuth.ResolvedMeansConfigured | suivi-dossier/index.js:31-41 | a role is only granted when some password is configured |
| MailLogs.SafeEqualExactly | routes/mail-logs.js:13-22 | the byte comparison is string equality, refused for an empty expected token |
| MailLogs.ExtractAdminToken | routes/mail-logs.js:25-38 | a non-empty x-admin-token, trimmed, takes precedence |
| MailLogs.BearerYieldsToken | routes/mail-logs.js:29-34 | `Authorization: Bearer <token>`, with the scheme in any case, yields the token |
| MailLogs.AuthorizationPadding | routes/mail-logs.js:31 | white space around the Authorization value does not matter |
| MailLogs.NoBearerNoToken | routes/mail-logs.js:25-38 | with no usable header, the token is "" |
| MailLogs.BlankHeaderShadowsBearer | routes/mail-logs.js:26-27 | a present but blank x-admin-token yields "" and hides the Bearer header |
| MailLogs.RequireAdminExactly | routes/mail-logs.js:41-50 | 503 exactly when no admin token is configured; the request passes exactly when its token equals the configured one |
| MailLogs.Limit | routes/mail-logs.js:55-58 | the limit is always in [1, 1000] |
| MailLogs.LimitClamps | routes/mail-logs.js:55-58 | an in-range value is kept, an out-of-range one is clamped, and a non-number gives 200 |
| MailLogs.LimitOfNumber | routes/mail-logs.js:55-58 | a decimal n gives 1 for 0, 1000 above 1000, and n otherwise |
| MailLogs.SearchText | routes/mail-logs.js:59 | q holds at most 300 characters |
| MailLogs.SearchTextPrefix | routes/mail-logs.js:59 | q is a prefix of the query, all of it exactly when the query fits |
| Utf8Bytes.Utf8Injective | routes/mail-logs.js:14-15 | different strings have different UTF-8 encodings |

## Left out

- FTP transport (connection, `ensureDir`, temp files, `basic-ftp`): a read or write is a pure function of the remote files plus a fault parameter; what a failed upload leaves in its file is part of that parameter.
- JSON text: a file's content is a parsed value, a blank text or an unparsable text; `JSON.stringify`/`JSON.parse` are not modelled.
- Floating-point numbers: `Number(...)` is modelled on integers only; a decimal text counts as not a number.
- MailLogs.Limit: treats decimal, exponent, hexadecimal, binary and octal texts ("12.5", "1e3", "0x10", "0b1", "0o7") as not a number and answers 200, where the source gives 12, 1000, 16, 1 and 7; the model parses only optionally signed decimal integers. A repeated `limit` parameter (`?limit=1&limit=2`, which Express gives as an array) is not modelled: the query value is absent or one string.
- LimitClamps: states the clamping for the texts the model reads as numbers only; the texts of the line above are clamped by the source and answered 200 by the model.
- KmRecords.NumberOf: decimal and exponent notations ("12.5", "1e3"), hexadecimal, binary and octal literals ("0x10", "0b1", "0o7") and "Infinity" or "+Infinity" count as NaN; `Number` accepts them.
- SaveRejects: rejects a km of "12.5", "1e3", "0x10", "0b1", "0o7", "Infinity" or "+Infinity" as not a number, where the source accepts it (storing `null` for an infinite km).
- Case mapping: `toUpperCase`/`toLowerCase` are modelled on ASCII and Latin-1 only, with no multi-character expansions.
- String lengths: JavaScript's `length`, `slice` and `padStart` count UTF-16 code units; the model counts characters (Unicode scalar values). The two differ only for characters outside the Basic Multilingual Plane, which count twice in the source, where a cut can also split them.
- ToYearMonth: the `length >= 7` test and the seven-unit cut count characters; a date holding a character outside the Basic Multilingual Plane is cut elsewhere by the source.
- MonthOfTrimmed: counts characters, as ToYearMonth.
- SaveRecordShape: the ten-unit `date.slice(0, 10)` counts characters, as ToYearMonth.
- SaveRecordFields: the stored date is cut after ten characters, as SaveRecordShape.
- DossierNoPadded: `padStart(5, "0")` counts characters; a dossier number holding a character outside the Basic Multilingual Plane gets one zero fewer in the source.
- SearchText: `slice(0, 300)` counts characters; in the source q holds at most 300 UTF-16 units and can end in half of a surrogate pair.
- SearchTextPrefix: the prefix is cut after 300 characters, as SearchText.
- Utf8Bytes.Utf8: lone surrogates (encoded by Node.js as U+FFFD) are not modelled; Dafny's `char` is a Unicode scalar value.
- `path.posix.join` normalisation: the model joins the non-empty segments with one "/" and resolves no ".", ".." or repeated "/". The month segment is the first seven characters of the request's `date`, so it can hold them: in the source the date "../../x" names `/x.json`, outside the agency's directory, and the months "a/../b1" and "b1" name one file.
- RemotePathLayout: holds of the model's un-normalised paths; for a month holding "/", "." or ".." segments the source's normalised path has another shape.
- MonthlyPathsDistinct: holds of un-normalised paths; two months that normalise alike ("a/../b1" and "b1") are one file in the source.
- FileLockKeyPerFile: the corrected key identifies the file only for months whose path needs no normalisation; "a/../b1" and "b1" get two keys for one file.
- AppendPathLayout: holds of un-normalised paths, as RemotePathLayout.
- NewIdSeq: sequence numbers are unbounded integers; the source's `parseInt` and `maxSeq + 1` are doubles, exact only below 2^53.
- NewIdFresh: holds in the source only for sequence numbers below 2^53: for a row "T1-9007199254740992", `maxSeq + 1` rounds back to 2^53 and the existing id is handed out again.
- NewIdUnused: holds in the source only below 2^53, as NewIdFresh.
- TourIdsDiffer: holds in the source only below 2^53, as NewIdFresh.
- KmStore.Store.RunNext: a job's read, computation and write run in one step, so two jobs on one file never interleave in the model. The lost update of two jobs that both read before either writes is stated on values by RacingAppendsLoseOne, and AsWrittenAppendsRace shows that the source's lock keys let two such jobs run at once.
- Spreading a row that is not an object in `/newid` (`{ ...p, dernierRemplacement }`): the model's `Spread` gives such a row no properties. In the source a string or an array row spreads its indices: `{..."ab"}` is `{"0":"a","1":"b"}` and `{...[5]}` is `{"0":5}`; numbers, booleans and null spread to nothing, as modelled.
- MonthlyPathNotParams: holds of the model's un-normalised paths only. The agency "@@" sanitises to "" and the date "/params" gives the month "/params", so the source joins `path.posix.join(base, "", "/params.json")`, which is the registry file, where the model's path is "{base}//params.json".
- The message of a TypeError: the model calls every such error `TypeError`. Which conversion or null read throws first changes only the logged message.
- AtelierMail.PieceReturned: the client address is handed to `sendMail` as the source holds it; the model records its text. How nodemailer treats an address that is not a string, and the log line after `sendMail` that converts it, are not modelled.
- `/healthz`: its FTP probe is not modelled; its `pendingWrites` count is `WriteQueues.PendingKeys`.
- The outer `catch` of `/data` (routes/kilometrage.js:509-514) is unreachable in the model, since every month's error is caught inside the loop.
- routes/kilometrage.js:555 ends `/resume` with a stray `});});`. The model follows the evident handler bodies.
- The session store of `/api/login`: `regenerate` and `save` are modelled only as whether they fail; `loginAt` and the session cookie are not modelled.
- Rate limiting (`express-rate-limit` on `/api/login`): not modelled.
- The mail bodies (HTML templates, `formatDate`, `transporter.sendMail`) and logging: only the guards and the recipient choice are modelled.
- The WHATWG URL parser: `SiteAuth.BrowserForm` models only its removal of tabs and newlines and its reading of a backslash as "/" in an `http(s)` URL, which is enough to tell whether a value starting with "/" names another host.
- `encodeURIComponent` and `URLSearchParams`: the encoded destination and the decoded `redirect` value are parameters.
- Exceptions thrown by `localStorage` (private mode, quota): the store never throws in the model.
- Header arrays (`req.headers[...]` given twice): a header is absent or one string.
- `getMailLogs` and the answer of `GET /api/mail-logs`: only `limit` and `q` are modelled.
- The other routes of suivi-dossier/index.js (`/config.js`, `/api/session`, `/api/logout`, static files, frame headers), and `loginWith`, `logout` and `wireLoginForm` in assets/auth.js: they do not belong to the modelled core.

## Findings

| source | as written | input that shows it | evidently intended | confidence | as-written member | corrected member |
|---|---|---|---|---|---|---|
| routes/kilometrage.js:255-268 | `appendRecord` takes the lock key from `sanitizeAgenceCode(codeAgence \|\| agence)`, but `monthlyRemotePath` sanitises that code a second time to build the file path | codeAgence "@@" sanitises to "" (key "/2026-02") and then to "INCONNU" (file `INCONNU/2026-02.json`); an append with codeAgence "INCONNU" writes the same file under the key "INCONNU/2026-02", so the two read-modify-writes are not serialised | one lock key per file written | not executed | KmKeys.LockKeyNotPerFile | KmKeys.FileLockKeyPerFile |
| assets/auth.js:143-158 | `getRedirectTarget` checks the raw `redirect` value for a leading "/" and no leading "//", but the browser removes tabs and newlines and reads a backslash as "/" before it parses the URL given to `location.href` | `?redirect=/%5Cevil.com` (the value `/\evil.com`) or `?redirect=/%09/evil.com`: both pass the check, and the browser opens `//evil.com`, another host | a redirect that stays on the site: no backslash and no control character after the leading "/" | not executed | SiteAuth.RedirectLeavesSite | SiteAuth.SafeRedirectStaysOnSite |

The store (`KmStore.Store.AppendRecord`) queues under the key as written, so that the race stays visible (`KmStore.AsWrittenAppendsRace`); `KmKeys.FileLockKey` is the corrected key, one per file written. Likewise `SiteAuth.AfterLogin` follows the check as written (`RedirectTarget`); `SiteAuth.SafeRedirectTarget` is the corrected check.
