# organizr, modelled in Dafny

organizr is an audiobook download manager. Its backend takes a download request, hands the torrent to qBittorrent, watches it with a monitor, and copies or moves the finished files into a library tree built from a path template. Around that lifecycle sit the configuration service (environment over database), the HTTP handlers' validation rules, and the search side (a provider registry, the MyAnonamouse provider and the aggregation over providers). Its frontend keeps downloads, search results, configuration and providers in four stores and offers small helpers for grouping results by series and validating form fields.

This project models that core in Dafny, one module per source file, and proves what the code promises:

- **Path helpers** (`sanitizer.dfy`, `template.dfy`). Sanitising removes the nine invalid characters, trims, collapses whitespace, and is idempotent. Template substitution is proved against a one-pass reference substitution. It is independent of the map's iteration order when keys and values hold no braces and the template's braces do not nest. A counterexample shows the order matters once braces nest.
- **Organization engine** (`organization.dfy`, `organization_props.dfy`). The filesystem is a class over a path-to-bytes map and a set of directories, with a failure oracle. `Organize` is a method proved against a reference definition. Lemmas cover:
  - the checks that stop before any file changes;
  - copy rollback;
  - move without rollback;
  - the unit choice and one-decimal rendering of `formatBytes`.
- **Monitor, store and download service** (`monitor.dfy`, `store.dfy`, `download_service.dfy`, `models.dfy`). The download repository is a class over a map from id to record, with a log of attempted writes.
  - One monitor tick is a method. A tick writes only progress and completion times, never a status, and each record gets exactly its own writes.
  - The write order of organizing, automatic and manual, is stated step by step.
  - Download creation checks its guards, then chooses the source by priority, then makes one insert.
- **qBittorrent helpers** (`qbit_client.dfy`): the hash taken from a magnet link, the empty-upload guard, and file-path composition.
- **Server rules** (`validation.dfy`, `dto.dfy`, `handlers.dfy`):
  - request, UUID and configuration-key validation;
  - the download view and the redaction of secrets;
  - the batch partition, where each index ends up either successful or failed, never both;
  - the required-key rule and the path preview;
  - the byte-length query guard.
- **Configuration** (`env_mapping.dfy`, `config_service.dfy`). The environment wins over the database for mapped keys only, and `GetAll` agrees with `Get`. The twelve-entry table is injective and follows the naming rule.
- **Search** (`mam.dfy`, `registry.dfy`, `search_aggregate.dfy`, `search_service.dfy`, `search_models.dfy`):
  - tag parsing;
  - the query flags and values;
  - conversion of tracker results;
  - registry lookups and schema validation;
  - aggregation over providers;
  - reloading the providers from the repository after each successful change.
- **Frontend** (`use_download_store.dfy`, `use_search_store.dfy`, `use_config_store.dfy`, `use_provider_store.dfy`, `group_series.dfy`, `validators.dfy`, with shared `lists.dfy` and `ui.dfy`). Each store is a class whose methods take the API call's outcome as a parameter. Grouping by series and the form validators are functions with characterising lemmas.

Network calls, the database, the clock and the environment are parameters: maps, failure sets or outcome values passed in.

Several behaviours of the code are easy to misread, and the model follows the code in each:

- The monitor never writes a download's status; the mapped status is only logged.
- A completed download stays in the active listing, so the monitor requests its organization again on every tick until something else changes its status. `Monitor.RedispatchedNextTick` states this.
- Completion is triggered by three raw torrent states. `forcedUP` and `checkingUP` map to completed, but they never trigger completion (`Monitor.CompletionAgainstMapping`).
- The monitor reads its auto-organize switch from `organization.auto_organize`. That key has no environment variable and is not the key the settings screen requires (`monitor.auto_organize`). See `EnvMapping.AutoOrganizeSwitchNotMapped`.
- A failed copy removes the earlier copies. The failing file's own partly written destination is not in the list of copies, so it can remain.
- The path preview substitutes `{series_number}`, but the organizer has no such variable and leaves it verbatim (`Handlers.PreviewShowsSeriesNumber`).
- The frontend's `SearchResult` type declares `series` as a string. `groupBySeries` reads it as an array of `{name, number}`, and the model follows `groupBySeries`.

## Model

| member | source | states |
|---|---|---|
| Strings.Split | backend/internal/search/providers/mam.go:317 | the pieces are at least one, hold no separator, and joined with it give back the text |
| Strings.Utf8Len | backend/internal/server/validation.go:31-43 | Go's len counts bytes: between one and four per character, one per ASCII character |
| Strings.Utf16Len | frontend/src/utils/validators.ts:20-34 | JavaScript's length counts UTF-16 units: one or two per character, one below U+10000 |
| Strings.Atoi | backend/internal/downloads/service.go:114 | strconv.Atoi answers exactly for an optional sign followed by a non-empty run of decimal digits whose signed value fits in 64 bits, and the answer is that signed value |
| Strings.AtoiRejects | backend/internal/downloads/service.go:114 | the empty text, a lone sign and any text with a non-digit after the sign are refused; plain digits within range read as their value |
| Strings.GoLower | backend/internal/server/dto.go:137 | lower-casing as strings.ToLower does keeps the length and maps each character on its own |
| Strings.GoLowerToLetter | backend/internal/server/dto.go:137 | a character lowers to an ASCII letter exactly when it is that letter, its capital, U+0130 for i or U+212A for k |
| Strings.GoLowerAscii | backend/internal/server/dto.go:137 | only ASCII characters and the two special capitals lower to ASCII, and ASCII lowers as ASCII does |
| Strings.FormatIntRoundTrip | backend/internal/search/providers/mam.go:84 | a 64-bit integer printed in decimal reads back as itself |
| Organization.Lookup | backend/internal/downloads/organization.go:52-65 | a configuration read yields the stored value, or the default when the key is missing |
| Organization.ChosenTemplate | backend/internal/downloads/organization.go:67-71 | the no-series template is used exactly when the series is empty, the series template otherwise |
| Organization.VarMap | backend/internal/downloads/organization.go:74-78 | the template variables are exactly author, series and title, with brace-free names |
| Organization.TemplateVars | backend/internal/downloads/organization.go:73-78 | the variables are author, series and title, each value sanitised: no invalid character and no surrounding whitespace |
| Organization.TargetPath | backend/internal/downloads/organization.go:67-84 | the organized directory lies under the configured destination, after a separator |
| Organization.Join | backend/internal/downloads/organization.go:84 | joining drops an empty element and otherwise separates the two parts by one slash |
| Organization.AfterLastSlash | backend/internal/downloads/organization.go:161 | the text after the last slash is a slash-free suffix of the path |
| Organization.Base | backend/internal/downloads/organization.go:161 | the base name is never empty, is "." for the empty path and is "/" or slash-free |
| Organization.Remapped | backend/internal/downloads/organization.go:96-102 | the mount prefix keeps one entry per source file |
| Organization.RequiredSpace | backend/internal/downloads/organization.go:126-128 | the required space is the total plus ten per cent, rounded down, and never below the total |
| Organization.ErrorText | backend/internal/downloads/organization.go:44-180 | every error carries a non-empty message; the space error names the required and the available size as formatBytes renders them |
| Organization.Plan | backend/internal/downloads/organization.go:159-161 | each file is transferred, in manifest order, into the target under its base name |
| Organization.FileSystem.MkdirAll | backend/internal/downloads/organization.go:48 | the directory exists afterwards unless creating it fails; files are untouched |
| Organization.FileSystem.Preflight | backend/internal/downloads/organization.go:104-115 | the loop over the sources yields the first stat error or the total size, as the preflight specification says |
| Organization.FileSystem.MoveFiles | backend/internal/downloads/organization.go:163-168 | the rename loop leaves the files the move specification describes, stopping at the first failure |
| Organization.FileSystem.CopyFile | backend/internal/downloads/organization.go:192-215 | one copy opens, creates, writes and syncs; a failure after the create leaves what was written; the copy reads the source after the create has truncated the destination |
| Organization.FileSystem.RemoveCopied | backend/internal/downloads/organization.go:175-179 | the cleanup removes each copied destination in turn, ignoring failed removals |
| Organization.FileSystem.CopyFiles | backend/internal/downloads/organization.go:169-184 | the copy loop leaves the files the copy specification describes, cleaning up on the first failure |
| Organization.RemapPaths | backend/internal/downloads/organization.go:92-102 | with a mount every source path gets the mount joined in front, names and sizes kept; without one nothing changes |
| Organization.Place | backend/internal/downloads/organization.go:104-186 | preflight, space check, target directory and transfer act on the filesystem as the placement specification says |
| Organization.Organize | backend/internal/downloads/organization.go:40-190 | the whole organization, step by step, leaves the result, files and directories of the reference definition |
| Organization.ScaleStep | backend/internal/downloads/organization.go:224-227 | one more division by 1024 keeps the value within the divisor's bracket |
| Organization.Pow1024Large | backend/internal/downloads/organization.go:223-227 | 1024^7 exceeds every signed 64-bit value, so the unit index stays in range |
| Organization.FinalBracket | backend/internal/downloads/organization.go:224-228 | when the loop ends the value lies between the divisor and 1024 times it |
| Organization.UnitInRange | backend/internal/downloads/organization.go:228 | the unit letter index is within "KMGTPE" for any 64-bit input |
| Organization.FormatBytes | backend/internal/downloads/organization.go:218-229 | the division loop settles on the scale of the value: below 1024 the plain count, otherwise the largest power of 1024 not above it with its unit letter |
| Organization.Scale | backend/internal/downloads/organization.go:218-229 | a scaled value lies in the bracket of its divisor, a power of 1024, and carries the unit of that power |
| Organization.ScaleFromBracket | backend/internal/downloads/organization.go:224-227 | the loop's bracket survives to its end |
| Organization.DivRoundEvenNearest | backend/internal/downloads/organization.go:229 | the rounded quotient is within half a unit of the exact one |
| Organization.SizeTextScaled | backend/internal/downloads/organization.go:218-229 | a value of 1024 or more is rendered as its quotient by the divisor rounded to one decimal, then the unit letter and B |
| Organization.SizeTextExamples | backend/internal/downloads/organization.go:218-229 | 1000 bytes read "1000 B", 1536 read "1.5 KB" and 1280, a tie, rounds to even as "1.2 KB" |
| OrganizationProps.PreflightOk | backend/internal/downloads/organization.go:104-115 | the preflight succeeds exactly when every source is readable, and then yields the sum of their sizes |
| OrganizationProps.PreflightFirstError | backend/internal/downloads/organization.go:106-113 | the first unreadable source is reported, as inaccessible when stating it is refused and as missing otherwise |
| OrganizationProps.PreflightErrorKind | backend/internal/downloads/organization.go:108-113 | the preflight fails only with a missing-source or inaccessible-source error |
| OrganizationProps.SeriesNumberKept | backend/internal/downloads/organization.go:74-81 | there is no series_number variable, so a "{series_number}" placeholder reaches the path unchanged |
| OrganizationProps.PlaceholderKept | backend/internal/fileutil/template.go:8-14 | a placeholder whose name is not a variable is left as written |
| OrganizationProps.DefaultTemplateShape | backend/internal/downloads/organization.go:54 | the default template is the author, series and title placeholders separated by slashes |
| OrganizationProps.SanitizedBraceFree | backend/internal/fileutil/sanitizer.go:11-26 | sanitising brace-free text yields brace-free text |
| OrganizationProps.SubstituteHead | backend/internal/fileutil/template.go:8-14 | a leading known placeholder is replaced by its value and the rest is substituted on its own |
| OrganizationProps.DefaultLayout | backend/internal/downloads/organization.go:52-84 | with the default template a download with a series goes to destination/author/series/title, each sanitised |
| OrganizationProps.DefaultPath | backend/internal/downloads/organization.go:54-81 | the default template over brace-free values is author/series/title in any iteration order |
| OrganizationProps.SubstituteDefault | backend/internal/downloads/organization.go:54-81 | substituting the default template yields the three values separated by slashes |
| OrganizationProps.FlatDefault | backend/internal/downloads/organization.go:54 | the default template's braces do not nest |
| OrganizationProps.RemoveAllEffect | backend/internal/downloads/organization.go:175-179 | the cleanup removes exactly the listed paths whose removal succeeds and touches nothing else |
| OrganizationProps.CopySuccess | backend/internal/downloads/organization.go:169-186 | a successful copy gives every destination its source's bytes and leaves every other path as it was |
| OrganizationProps.CopyRollbackFrom | backend/internal/downloads/organization.go:171-181 | after a failed copy only the failing file's own destination differs from before the loop, for any prefix already copied |
| OrganizationProps.CopyRollback | backend/internal/downloads/organization.go:171-181 | a failed copy removes every earlier copy; only the failing destination may remain, partly written |
| OrganizationProps.CopyRollbackClean | backend/internal/downloads/organization.go:171-202 | a copy failing at open or create leaves the filesystem exactly as it was |
| OrganizationProps.CopyOntoItself | backend/internal/downloads/organization.go:192-207 | a file copied onto itself is emptied by the create and the copy still reports success |
| OrganizationProps.MoveCompose | backend/internal/downloads/organization.go:159-168 | moving a plan in two parts is moving the first part and then, if it succeeded, the second |
| OrganizationProps.MoveNoRollback | backend/internal/downloads/organization.go:164-168 | a failed rename keeps the renames made before it |
| OrganizationProps.MoveSuccess | backend/internal/downloads/organization.go:163-168 | a successful move puts each source's bytes at its destination, removes the source and leaves other paths alone |
| OrganizationProps.MovePlaces | backend/internal/downloads/organization.go:163-168 | with distinct destinations that are not sources, a successful move leaves each destination holding its source's former bytes and no source behind |
| OrganizationProps.MoveKeepsOthers | backend/internal/downloads/organization.go:163-168 | a move run, finished or stopped, leaves every path that is neither a source nor a destination as it was |
| OrganizationProps.TransferErrorKinds | backend/internal/downloads/organization.go:167-180 | the move loop fails only with a move error and the copy loop only with a copy error |
| OrganizationProps.PlaceChecks | backend/internal/downloads/organization.go:104-140 | a failed check changes no file; success needs readable sources and enough space, and creates the target directory |
| OrganizationProps.ChecksChangeNoFile | backend/internal/downloads/organization.go:40-140 | every failure before the transfer loop leaves the files untouched and creates at most the base directory |
| OrganizationProps.SuccessConditions | backend/internal/downloads/organization.go:40-189 | success needs a destination, a manifest, readable sources and enough space; the download records the target as its organized path |
| OrganizationProps.InsufficientSpaceStops | backend/internal/downloads/organization.go:126-131 | too little space stops with the required and available amounts before the target directory or any file is touched |
| OrganizationProps.UnreadableSourceStops | backend/internal/downloads/organization.go:104-115 | an unreadable source stops before the space check and before the target directory is created |
| Template.Placeholder | backend/internal/fileutil/template.go:10 | the placeholder of a key is the key wrapped in one pair of braces |
| Template.SubstituteCopies | backend/internal/fileutil/template.go:7-14 | text without an opening brace passes through the substitution unchanged |
| Template.SubstituteNothing | backend/internal/fileutil/template.go:7-14 | with no variables the template is returned as it is |
| Template.ReplaceAtPlaceholder | backend/internal/fileutil/template.go:11 | a replacement pass turns a leading occurrence of the placeholder into the value |
| Template.PlaceholdersDiffer | backend/internal/fileutil/template.go:10 | placeholders of two different brace-free keys differ at a common position |
| Template.ReplaceAtOtherPlaceholder | backend/internal/fileutil/template.go:11 | a replacement pass copies another key's placeholder whole |
| Template.ReplaceAtUnclosed | backend/internal/fileutil/template.go:11 | an opening brace that is never closed is never a match |
| Template.ReplaceAfterSubstitute | backend/internal/fileutil/template.go:9-12 | one more replacement pass on a substituted template is substitution with that key added |
| Template.SubstituteAtPlaceholder | backend/internal/fileutil/template.go:9-12 | a closed placeholder becomes its value when it names a key and stays as written otherwise |
| Template.FoldIsSubstitute | backend/internal/fileutil/template.go:9-12 | the rest of the replacement loop over the remaining keys completes the one-pass substitution |
| Template.ParseTemplateIsSubstitute | backend/internal/fileutil/template.go:7-14 | with brace-free keys and values and non-nested braces, the loop equals a single left-to-right substitution |
| Template.ParseTemplate | backend/internal/fileutil/template.go:7-14 | a template without an opening brace comes back unchanged, whatever the iteration order |
| Template.OrderIndependent | backend/internal/fileutil/template.go:9 | under those conditions the result does not depend on the map's iteration order |
| Template.NestedBracesOrderMatters | backend/internal/fileutil/template.go:9-12 | with nested braces the iteration order changes the result: "{{a}}" gives "X" or "{b}" |
| Template.ParseTemplateIdentity | backend/internal/fileutil/template.go:7-14 | no variables, or no opening brace in the template, leaves the template unchanged |
| Template.KnownPlaceholdersVanish | backend/internal/fileutil/template.go:7-14 | when every brace belongs to a known placeholder the substitution leaves no brace |
| Template.ParseTemplateNoBraces | backend/internal/fileutil/template.go:7-14 | then no brace survives the loop, whatever the order |
| Template.UnknownPlaceholderKept | backend/internal/fileutil/template.go:9-12 | a placeholder naming no key survives every replacement verbatim |
| Sanitizer.SanitizeFilename | backend/internal/fileutil/sanitizer.go:31-34 | a sanitised file name holds no slash or backslash and does not start or end with whitespace |
| Sanitizer.Dashed | backend/internal/fileutil/sanitizer.go:13-17 | replacing each invalid character by one hyphen keeps the length |
| Sanitizer.ReplaceOneChar | backend/internal/fileutil/sanitizer.go:16 | replacing a one-character pattern rewrites exactly the positions holding it |
| Sanitizer.ReplaceEachIsDashed | backend/internal/fileutil/sanitizer.go:15-17 | because the hyphen is never in the list, the loop replaces each invalid occurrence by exactly one hyphen |
| Sanitizer.ReplacePass | backend/internal/fileutil/sanitizer.go:13-17 | after the loop no invalid character remains |
| Sanitizer.CollapseEmpty | backend/internal/fileutil/sanitizer.go:23 | collapsing whitespace yields the empty string only from the empty string |
| Sanitizer.CollapseFirst | backend/internal/fileutil/sanitizer.go:23 | collapsing keeps a leading character that is not whitespace |
| Sanitizer.CollapseLast | backend/internal/fileutil/sanitizer.go:23 | collapsing keeps a trailing character that is not whitespace |
| Sanitizer.CollapseChars | backend/internal/fileutil/sanitizer.go:23 | collapsing writes only input characters or a space |
| Sanitizer.CollapseIsCollapsed | backend/internal/fileutil/sanitizer.go:23 | after collapsing, whitespace occurs only as isolated single spaces |
| Sanitizer.CollapseFixed | backend/internal/fileutil/sanitizer.go:23 | an already collapsed string is unchanged by collapsing |
| Sanitizer.CollapseVisible | backend/internal/fileutil/sanitizer.go:23 | collapsing keeps the non-whitespace characters in order |
| Sanitizer.TrimLeftVisible | backend/internal/fileutil/sanitizer.go:20 | trimming leading whitespace keeps the non-whitespace characters |
| Sanitizer.TrimRightVisible | backend/internal/fileutil/sanitizer.go:20 | trimming trailing whitespace keeps the non-whitespace characters |
| Sanitizer.Re2IsGoSpace | backend/internal/fileutil/sanitizer.go:20-23 | the regular expression's whitespace class is contained in the trim's whitespace |
| Sanitizer.TrimSpaceChars | backend/internal/fileutil/sanitizer.go:20 | trimming only removes characters |
| Sanitizer.SanitizePath | backend/internal/fileutil/sanitizer.go:11-26 | the result holds no invalid character, is trimmed, and holds whitespace only as isolated single spaces |
| Sanitizer.SanitizeNoInvalid | backend/internal/fileutil/sanitizer.go:11-26 | the three passes leave none of the nine invalid characters |
| Sanitizer.SanitizeTrimmed | backend/internal/fileutil/sanitizer.go:11-26 | the three passes leave no whitespace at either end |
| Sanitizer.SanitizeKeepsVisible | backend/internal/fileutil/sanitizer.go:11-26 | each invalid character becomes one hyphen and the other non-whitespace characters keep their order |
| Sanitizer.SanitizeEmpty | backend/internal/fileutil/sanitizer.go:11-26 | the result is empty exactly when the input is empty or all whitespace |
| Sanitizer.DashedKeepsSpaces | backend/internal/fileutil/sanitizer.go:13-17 | no invalid character is whitespace, so replacement keeps whitespace where it was |
| Sanitizer.SanitizeIdempotent | backend/internal/fileutil/sanitizer.go:11-26 | sanitising twice is sanitising once |
| Sanitizer.SanitizeChars | backend/internal/fileutil/sanitizer.go:11-26 | sanitising introduces no character other than a hyphen or a space |
| Monitor.MapStatus | backend/internal/downloads/monitor.go:147-158 | each queued state maps to queued, each downloading state to downloading and each seeding state to completed; every other state maps to nothing |
| Monitor.CompletionAgainstMapping | backend/internal/downloads/monitor.go:103-154 | every state that triggers completion maps to completed, but forcedUP and checkingUP map to completed without triggering it |
| Monitor.AutoOrganize | backend/internal/downloads/monitor.go:112-119 | auto-organization is off only when the key can be read and is "false" |
| Monitor.Snapshot | backend/internal/downloads/monitor.go:68 | the listed records in the listing's order |
| Monitor.RecordStep | backend/internal/downloads/monitor.go:77-134 | an unknown torrent gets no write; a known one gets its progress, then completion time exactly when the state completes and it is not organized; organization is requested only after that write succeeds with auto-organize on |
| Monitor.VisitRecord | backend/internal/downloads/monitor.go:78-133 | one loop body makes the attempts of the record's step and requests organization as the step says |
| Monitor.CheckDownloads | backend/internal/downloads/monitor.go:66-144 | a failed listing changes nothing and reports the error; otherwise the tick's attempts are applied in order and the requested organizations returned |
| Monitor.VisitAll | backend/internal/downloads/monitor.go:77-135 | the loop over the listed records performs the tick's attempts and dispatches in order |
| Monitor.WritesFor | backend/internal/downloads/monitor.go:77-135 | the writes about one download all target it |
| Monitor.WritesForAppend | backend/internal/downloads/monitor.go:77-135 | the writes about one download split over consecutive parts of a tick |
| Monitor.TickWritesForAt | backend/internal/downloads/monitor.go:77-135 | with distinct ids, the writes about a listed download are exactly its own step's writes |
| Monitor.TickWritesForNone | backend/internal/downloads/monitor.go:77-135 | a tick writes nothing about an id none of its records carries |
| Monitor.TickRecordWrites | backend/internal/downloads/monitor.go:68-135 | a tick over the active records writes, for each id, exactly its own step and nothing for records not listed |
| Monitor.TickWritesNoStatus | backend/internal/downloads/monitor.go:90-107 | a tick only updates progress and completion time |
| Monitor.TickKeepsStatus | backend/internal/downloads/monitor.go:94-100 | a tick never changes a record's status, id or hash, nor the set of records; the mapped status is only logged |
| Monitor.RecordStepDependsOn | backend/internal/downloads/monitor.go:79-103 | one record's step depends only on its id, hash and status |
| Monitor.DispatchedIsStep | backend/internal/downloads/monitor.go:122-133 | every dispatched id is a listed record whose step requested organization |
| Monitor.RedispatchedNextTick | backend/internal/downloads/monitor.go:103-133 | a dispatched record stays active after the tick and is dispatched again by the next tick with the same answers |
| Monitor.FinishAttempts | backend/internal/downloads/monitor.go:168-188 | a failed organization stores the error then failed; a successful one stores organized, and the path only if that succeeded |
| Monitor.Reported | backend/internal/downloads/monitor.go:168-188 | a success is stored as its organized path, a failure as the error text, which is never empty |
| Monitor.StoreOutcome | backend/internal/downloads/monitor.go:168-188 | storing the outcome performs exactly those attempts in order |
| Monitor.OrganizeAndStore | backend/internal/downloads/monitor.go:167-190 | organizing then storing leaves the filesystem of the organization and the records of its stored outcome |
| Monitor.OrganizeDownload | backend/internal/downloads/monitor.go:160-191 | if marking organizing fails nothing else happens; otherwise organization runs and its outcome is stored |
| Monitor.OrganizeDownloadFinalState | backend/internal/downloads/monitor.go:160-191 | with no failing write an organized download ends organized with its path and time, a failed one ends failed with the error text |
| Monitor.FinishOrder | backend/internal/downloads/monitor.go:180-188 | the path is stored only right after organized was stored successfully, and a failure never stores organized or a path |
| Monitor.IntervalFrom | backend/internal/downloads/monitor.go:40-46 | a readable integer setting replaces the interval; a missing or non-numeric one keeps it |
| Monitor.NonPositiveIntervalAccepted | backend/internal/downloads/monitor.go:39-49 | a setting of "0" or "-5" is taken as the interval, which the ticker then refuses |
| Monitor.MonitorSettings.LoadInterval | backend/internal/downloads/monitor.go:40-46 | the first step of Run sets the interval from the configuration |
| Monitor.MonitorSettings.constructor | backend/internal/downloads/monitor.go:28-36 | a new monitor polls every 30 seconds and allows 3 concurrent organizations |
| Models.StatusName | backend/internal/models/download.go:28-35 | every status has a non-empty stored name |
| Store.Try | backend/internal/persistence/sqlite/downloads.go:122-165 | an update statement succeeds exactly when the failure oracle does not name it |
| Store.Stored | backend/internal/persistence/sqlite/downloads.go:20-35 | an insert keeps exactly the columns of the INSERT statement; the fields filled in later start empty |
| Store.Applied | backend/internal/persistence/sqlite/downloads.go:20-174 | an insert stores the record, a delete removes it, an update changes only its own record, and field updates keep id, hash and status |
| Store.DownloadStore.Perform | backend/internal/persistence/sqlite/downloads.go:20-174 | one statement is recorded as attempted and, when accepted, applied to the records |
| Store.DownloadStore.Get | backend/internal/persistence/sqlite/downloads.go:37-69 | a lookup by id yields the stored record exactly when there is one |
| Store.ApplyAllAppend | backend/internal/persistence/sqlite/downloads.go:122-174 | applying attempts in two parts is applying them all in order |
| Store.ApplyOne | backend/internal/persistence/sqlite/downloads.go:122-174 | a failed attempt changes nothing and a successful one is applied before the rest |
| Store.ApplyAllKeeps | backend/internal/persistence/sqlite/downloads.go:131-165 | progress, error, path and completion updates never add or remove a record or change its id, hash or status |
| Store.ApplyAllKeyed | backend/internal/persistence/sqlite/downloads.go:20-174 | the store stays keyed by each record's own id |
| DownloadService.ExtractTorrentId | backend/internal/downloads/service.go:98-120 | no "tid=" is the missing-id error; otherwise the id is the decimal reading of the text after it, and a non-number is the invalid-id error |
| DownloadService.IdTextSpec | backend/internal/downloads/service.go:100-111 | the id text starts right after the first "tid=" and ends at the first '&' or the next "tid=", containing neither |
| DownloadService.SourceOf | backend/internal/downloads/service.go:52-83 | torrent bytes are used when present, else a tracker download URL, else the magnet link or URL |
| DownloadService.HashFor | backend/internal/downloads/service.go:51-83 | the hash is the one the client reports for the chosen source; a tracker download is uploaded as the fetched file, and the client's answer is the hash or the client error |
| DownloadService.CreateGuard | backend/internal/downloads/service.go:37-43 | a missing title or author is refused first, then a request with no URL, magnet link or bytes |
| DownloadService.CreateDownload | backend/internal/downloads/service.go:36-94 | a refused or failed request leaves the store untouched; otherwise one insert of the queued record with the reported hash is attempted and its outcome reported |
| DownloadService.CreatedRecord | backend/internal/downloads/service.go:85-93 | the stored download is queued, carries the reported hash and keeps the request's title, author, series and links; other records are unchanged |
| DownloadService.SourcePriority | backend/internal/downloads/service.go:52-83 | torrent bytes win over any link, and a tracker download URL wins over a magnet link |
| DownloadService.TrackerUrlWithoutTid | backend/internal/downloads/service.go:58-103 | a tracker URL without "tid=" fails before the tracker is contacted |
| DownloadService.CancelDownload | backend/internal/downloads/service.go:138-155 | an unknown id is not found; otherwise the torrent is removed from the client keeping its files, and only then is the record deleted |
| DownloadService.ManualWrites | backend/internal/downloads/service.go:165-176 | an organization error writes nothing; success writes organized, then the path only if that succeeded |
| DownloadService.ManualResult | backend/internal/downloads/service.go:165-178 | the request succeeds exactly when organization and every write succeed |
| DownloadService.StoreManual | backend/internal/downloads/service.go:165-178 | storing the outcome performs exactly those writes and reports that result |
| DownloadService.OrganizeStored | backend/internal/downloads/service.go:164-178 | organizing the stored record and storing the outcome leaves the organization's filesystem and the stored writes |
| DownloadService.OrganizeDownload | backend/internal/downloads/service.go:157-179 | an unknown id changes nothing; otherwise the record is organized and the outcome stored |
| DownloadService.ManualWritesOnlyOrganized | backend/internal/downloads/service.go:165-176 | organizing on request never writes organizing or failed, and stores the path only right after organized was stored |
| QBit.ExtractHashFromMagnet | backend/internal/qbittorrent/client.go:397-415 | no "magnet:?" prefix or no hash marker gives the empty hash; the hash never holds '&' |
| QBit.SplitHead | backend/internal/qbittorrent/client.go:403-408 | the first two parts of a split are the text before the first separator and the text up to the next one |
| QBit.ExtractHashSpec | backend/internal/qbittorrent/client.go:397-415 | the hash starts right after the first marker and ends at the end, at '&' or where another marker starts |
| QBit.FirstSegment | backend/internal/qbittorrent/client.go:403-408 | the first part of a split is a separator-free prefix followed by the end or the separator |
| QBit.AddTorrent | backend/internal/qbittorrent/client.go:81-129 | a failed login is reported first, then a missing source; success needs an accepted request and a non-empty hash taken from the magnet link |
| QBit.UrlOnlyAddNeverYieldsHash | backend/internal/qbittorrent/client.go:117-128 | a torrent added by URL alone is accepted remotely but reported as an error, since no hash can be derived |
| QBit.AddTorrentFromFile | backend/internal/qbittorrent/client.go:131-135 | empty torrent data is refused before any request; otherwise the exchange's answer is the result |
| QBit.ComposeFiles | backend/internal/qbittorrent/client.go:350-361 | each listed file becomes a file under the save path with its name and size, in listing order |
| Validation.ValidateDownloadRequest | backend/internal/server/validation.go:15-44 | a request passes exactly when well formed; otherwise the first failing check in source order is reported |
| Validation.BlankTitleRejected | backend/internal/server/validation.go:17-19 | a title of only whitespace is reported as missing, whatever else the request holds |
| Validation.TitleLimitIsInclusive | backend/internal/server/validation.go:31-33 | the title limit counts bytes and is inclusive: 500 ASCII characters pass, 501 do not |
| Validation.Repeat | backend/internal/server/validation.go:11 | a repeated class fills exactly the given number of positions |
| Validation.UuidPattern | backend/internal/server/validation.go:11 | the anchored pattern covers exactly 36 positions |
| Validation.UuidShape | backend/internal/server/validation.go:11 | the anchored pattern matches exactly the ids with 36 characters, dashes at 8, 13, 18 and 23, a '4' at 14, one of 8, 9, a, b at 19 and lower-case hex elsewhere |
| Validation.RequestErrorText | backend/internal/server/validation.go:17-41 | each failed check reports a non-empty message of its own |
| Validation.RequestErrorTextInjective | backend/internal/server/validation.go:17-41 | two checks report the same message exactly when they are the same check |
| Validation.ValidateUuid | backend/internal/server/validation.go:47-52 | an id is accepted exactly when it has that layout |
| Validation.UuidRejectsUpperCase | backend/internal/server/validation.go:11-52 | an upper-case letter anywhere makes the id invalid |
| Validation.ValidateConfigKey | backend/internal/server/validation.go:55-67 | a blank key is reported as empty, and only a blank key |
| Validation.ConfigKeyAccepted | backend/internal/server/validation.go:55-67 | a key is accepted exactly when it is non-empty and made only of letters, digits, dots, underscores and hyphens |
| Dto.ParseStatus | backend/internal/models/download.go:28-35 | a status string is read back only as the status whose stored name it is |
| Dto.DtoRoundTrip | backend/internal/server/dto.go:24-38 | the view loses nothing it shows: its status string reads back as the record's status and the other shown fields are the record's own |
| Dto.StatusNameInjective | backend/internal/server/dto.go:30 | two different statuses never show the same string |
| Dto.ToDtoList | backend/internal/server/dto.go:40-46 | one view per record, in the same order |
| Dto.RedactAll | backend/internal/server/dto.go:130-151 | redaction keeps exactly the same keys |
| Dto.KeyIsSensitive | backend/internal/server/dto.go:135-141 | the scan over the fragments finds a match exactly when the key, lower-cased as strings.ToLower does, contains a lower-cased fragment |
| Dto.SanitizeConfig | backend/internal/server/dto.go:130-151 | the loop over the settings builds the redacted map: secrets replaced by the marker, other values kept |
| Dto.RedactIdempotent | backend/internal/server/dto.go:130-151 | redacting twice is redacting once |
| Dto.ApiKeyCaseInsensitive | backend/internal/server/dto.go:132-137 | a key holding "apikey" in any mixture of letter case, or with U+0130 for the i, is redacted |
| Dto.SensitiveFragments | backend/internal/server/dto.go:132-141 | a key is secret exactly when its Go lower-casing contains "secret", "apikey", "password" or "token" |
| Dto.LowerSecretPassword | backend/internal/server/dto.go:132-137 | the first and third fragments are already lower case |
| Dto.LowerToken | backend/internal/server/dto.go:132-137 | the last fragment lower-cases to itself |
| Dto.NonAsciiCapitalsRedacted | backend/internal/server/dto.go:137 | keys written with U+0130 or U+212A that lower to "apikey" or "token" are redacted |
| Dto.ToDto | backend/internal/server/dto.go:24-38 | every shown field is the record's own, and the status is shown as its stored name |
| EnvMapping.GetEnvKey | backend/internal/config/env_mapping.go:18-20 | a key outside the table has no variable ("" from the map lookup); a key in it has its non-empty variable |
| EnvMapping.EnvNameFollowsRule | backend/internal/config/env_mapping.go:3-16 | the naming rule of the table (dots to underscores, letters upper-cased), stated character by character, agrees with its recursive form |
| EnvMapping.TableFollowsNamingRule | backend/internal/config/env_mapping.go:3-16 | every variable in the table is its key under the naming rule |
| EnvMapping.EntryFollowsRule | backend/internal/config/env_mapping.go:4-15 | each listed entry is in the table and follows the rule |
| EnvMapping.TableKeys | backend/internal/config/env_mapping.go:3-16 | the table has exactly the twelve listed keys, all different |
| EnvMapping.TableInjective | backend/internal/config/env_mapping.go:3-16 | no two keys share a variable |
| EnvMapping.AutoOrganizeSwitchNotMapped | backend/internal/downloads/monitor.go:114 | the key the monitor reads for its auto-organize switch has no environment variable |
| ConfigService.OverrideIn | backend/internal/config/service.go:23-27 | an override exists exactly when the key has a variable and that variable is non-empty, and then it is the variable's value |
| ConfigService.EnvOverride | backend/internal/config/service.go:23-27 | the same, for the service's own table |
| ConfigService.OverwriteFromEnv | backend/internal/config/service.go:44-49 | the overwrite loop yields the stored map with each mapped key whose variable is non-empty replaced by that value, whatever order the keys are visited in |
| ConfigService.Service.constructor | backend/internal/config/service.go:15-19 | the service starts over the given table and environment |
| ConfigService.Service.Get | backend/internal/config/service.go:21-35 | a non-empty variable wins; otherwise the table's value, a not-found error for a missing key, or the query error |
| ConfigService.Service.GetAll | backend/internal/config/service.go:37-52 | a failed read is an error; otherwise the stored map overlaid with the environment |
| ConfigService.Service.Set | backend/internal/config/service.go:54-59 | an upsert of the key (backend/internal/persistence/sqlite/config.go:34-49); a failed write leaves the table alone and is reported |
| ConfigService.UnmappedIgnoresEnv | backend/internal/config/service.go:23 | a key without a variable reads the same under every environment, through Get and through GetAll |
| ConfigService.SetThenGet | backend/internal/config/service.go:21-35 | after a write, a read returns the written value unless the key's variable overrides it |
| ConfigService.LookupIn | backend/internal/config/service.go:21-35 | a read succeeds exactly when the key is stored or overridden |
| ConfigService.GetIsLookup | backend/internal/config/service.go:21-35 | the service's read is the lookup on its current table |
| ConfigService.GetAllAgreesWithGet | backend/internal/config/service.go:21-52 | GetAll reports a key exactly when Get finds it, and with the same value |
| Handlers.PrepareDownload | backend/internal/server/handlers.go:45-90 | a request is prepared exactly when it validates and its tracker id, if any, parses and its torrent is fetched; validation errors come first, then a bad id; the record carries the request's fields and the fetched bytes |
| Handlers.PreparedPassesGuard | backend/internal/server/handlers.go:53-56 | a request that passed validation always passes the download service's own guard |
| Handlers.CreatedRecord | backend/internal/server/handlers.go:86-92 | a created download has the fresh id, the request's title and author, and status queued |
| Handlers.Create | backend/internal/server/handlers.go:86-90 | a failed exchange with the client is its error and writes nothing; otherwise one insert of the queued record with the client's hash is attempted, and the record is the answer exactly when the store accepts it |
| Handlers.StatusCode | backend/internal/server/handlers.go:53-90 | a validation failure or a bad tracker id is a 400; every other failure a 500 |
| Handlers.ItemErrorText | backend/internal/server/handlers.go:506-552 | every failed item carries a non-empty message; a validation failure reads "Validation failed: " followed by the failing check's message |
| Handlers.ItemErrorTextTellsReason | backend/internal/server/handlers.go:502-508 | a validation failure's message equals another item's exactly when that item failed the same check |
| Handlers.BlankTitleMessage | backend/internal/server/handlers.go:502-508 | a blank title is reported as "Validation failed: title is required and cannot be empty" |
| Handlers.HandleCreateDownload | backend/internal/server/handlers.go:45-92 | a request that cannot be prepared is refused with its status and touches nothing; a client failure is a 500 that touches nothing; a request that reaches the store is stored under the fresh id and returned as its view exactly when the store accepts the insert, else a 500 |
| Handlers.ProcessItem | backend/internal/server/handlers.go:500-557 | an item that does not reach the store fails with its own index, request and a non-empty message and writes nothing; one that does makes one insert of its created record and succeeds exactly when the store accepts it |
| Handlers.ProcessBatch | backend/internal/server/handlers.go:496-558 | the sequential loop ends with every item in exactly one of the two lists, failures in index order; its inserts are those of the items that reach the store, in item order, and leave the records those inserts make |
| Handlers.HandleBatch | backend/internal/server/handlers.go:477-568 | an empty batch or one over 50 items is refused before any item is processed; otherwise every item is processed, and the store ends with the records its inserts make |
| Handlers.CreatedRecords | backend/internal/server/handlers.go:496-558 | the record each item would store: its created record when it reaches the store, nothing otherwise |
| Handlers.AttemptsStep | backend/internal/server/handlers.go:500-557 | one more item extends the inserts by its own, which goes through exactly when the item succeeds |
| Handlers.BatchInserts | backend/internal/server/handlers.go:496-558 | the j-th insert of a batch stores the created record of a reaching item, every reaching item has its insert, in item order, and an insert went through exactly when its item is among the successes |
| Handlers.BatchOutcome | backend/internal/server/handlers.go:496-558 | successes plus failures is the batch size; each index is in exactly one list; each success is the queued view of its item; a non-numeric tracker id fails its item |
| Handlers.UpdateConfigCheck | backend/internal/server/handlers.go:262-296 | a key or value passes exactly when the key is well formed and the value is non-empty or the key is not required |
| Handlers.HandleUpdateConfig | backend/internal/server/handlers.go:262-304 | a refused request writes nothing; an accepted one writes the key, and a failed write is reported |
| Handlers.EmptyKeyRefusedByValidation | backend/internal/server/handlers.go:264-272 | the empty key fails the key check as well |
| Handlers.EmptyValueRule | backend/internal/server/handlers.go:281-296 | for a well-formed key, an empty value is refused exactly for the nine required keys |
| Handlers.RequiredAreMappedKeys | backend/internal/server/handlers.go:281-291 | the required keys are the environment-mapped keys without the password, the tracker secret and the mount prefix |
| Handlers.PreviewVarMap | backend/internal/server/handlers.go:451-456 | the preview's variables are author, series, series_number and title, each bound to its field |
| Handlers.PreviewVars | backend/internal/server/handlers.go:451-456 | the four variables, each value sanitised: no invalid character and no surrounding whitespace |
| Handlers.PreviewPath | backend/internal/server/handlers.go:439-465 | an invalid template gives valid=false with the error and no path; a valid one gives the template with the sanitised fields substituted |
| Handlers.PreviewVarsBraceFree | backend/internal/server/handlers.go:451-456 | fields without braces give variables without braces |
| Handlers.SeriesNumberSubstituted | backend/internal/server/handlers.go:454-459 | a "{series_number}" template becomes the series number whatever the iteration order |
| Handlers.PreviewShowsSeriesNumber | backend/internal/server/handlers.go:439-459 | the preview substitutes {series_number}, which the organizer leaves verbatim |
| Handlers.PreviewOrderIndependent | backend/internal/server/handlers.go:459 | with brace-free fields and a template whose braces do not nest, the preview does not depend on the map's iteration order |
| Handlers.SearchQueryCheck | backend/internal/server/handlers.go:316-326 | a query passes exactly when it is at least two bytes long; the empty query is the missing-query error |
| Handlers.OneCharacterQueries | backend/internal/server/handlers.go:323 | the length is counted in bytes: one ASCII character is refused, one non-ASCII character passes |
| Mam.KeepTrimmed | backend/internal/search/providers/mam.go:318-323 | the kept pieces are never more than the pieces and never empty |
| Mam.ParseTags | backend/internal/search/providers/mam.go:312-325 | the loop yields the comma-separated pieces, trimmed, with the blank ones dropped |
| Mam.OneTag | backend/internal/search/providers/mam.go:317-323 | a piece without commas that is not blank is exactly one tag, its trimmed text |
| Mam.Tags | backend/internal/search/providers/mam.go:317-323 | every tag is non-empty, already trimmed, and holds no comma |
| Mam.TagsConcat | backend/internal/search/providers/mam.go:317-323 | tags keep their input order: the tags of a comma-joined text are the head's tags followed by the tail's |
| Mam.SplitAtComma | backend/internal/search/providers/mam.go:317 | splitting a comma-joined text is splitting each side |
| Mam.KeepTrimmedConcat | backend/internal/search/providers/mam.go:319-323 | dropping blank pieces distributes over concatenation |
| Mam.FlagPrefix | backend/internal/search/providers/mam.go:329-339 | the prefix is the names of the set flags, concatenated in the fixed order |
| Mam.SelectedFlags | backend/internal/search/providers/mam.go:331-339 | "description&", "dlLink&", "isbn&", each present exactly when its flag is set, in that order |
| Mam.FlagPrefixReadsBack | backend/internal/search/providers/mam.go:331-339 | the prefix determines the flags: reading it back gives them |
| Mam.AddValue | backend/internal/search/providers/mam.go:352 | Add appends the value to those already under the key |
| Mam.FormatValues | backend/internal/search/providers/mam.go:341-373 | the loop over the torrent array builds the values the parameters call for |
| Mam.AddTorrent | backend/internal/search/providers/mam.go:349-372 | one element of the array adds its list-valued keys and then sets each single-valued key whose field is given |
| Mam.AddCategories | backend/internal/search/providers/mam.go:349-354 | each category is added under tor[main_cat][] in order |
| Mam.AddSearchIn | backend/internal/search/providers/mam.go:355-359 | each searched field adds "true" under its own key |
| Mam.SearchInKeyDistinct | backend/internal/search/providers/mam.go:357 | the key of a searched field is never one of the fixed keys |
| Mam.AddAllAppends | backend/internal/search/providers/mam.go:351-353 | adding a list appends it, in order, to the key's values |
| Mam.FoldKeepsPerPage | backend/internal/search/providers/mam.go:348-373 | the torrent array never writes the page size |
| Mam.PerPageOnlyWhenPositive | backend/internal/search/providers/mam.go:344-346 | perpage is sent exactly when the page size is positive, as its decimal text |
| Mam.CategoriesInOrder | backend/internal/search/providers/mam.go:348-354 | every category of every element is appended under tor[main_cat][], in order |
| Mam.MainCategoriesSent | backend/internal/search/providers/mam.go:341-354 | the encoded categories are exactly those of the parameters |
| Mam.TorrentText | backend/internal/search/providers/mam.go:363-365 | an element with a text sets tor[text] to it; one without leaves it alone |
| Mam.TextLastWins | backend/internal/search/providers/mam.go:348-373 | tor[text] holds the text of the last element that gives one, and is absent when none does |
| Mam.ProviderQuery | backend/internal/search/providers/mam.go:37-53 | the search asks for descriptions and download links, 100 results, the audiobook category, and carries the query only when it is non-empty |
| Mam.ToResult | backend/internal/search/providers/mam.go:83-113 | the three flags hold exactly when their integer field is 1; a download link is set exactly when dl is present and non-empty, and then points at the torrent; the provider is the tracker's name |
| Mam.DownloadLink | backend/internal/search/providers/mam.go:107 | the link starts with the tracker's download page |
| Mam.DownloadLinkId | backend/internal/search/providers/mam.go:107 | the text after the download page reads back as the torrent id |
| Mam.ConvertResults | backend/internal/search/providers/mam.go:81-115 | one result per torrent, in order, each converted as above |
| Mam.ToResults | backend/internal/search/providers/mam.go:81-115 | one result per torrent, and the result at each position is the conversion of the torrent at that position |
| Mam.ConvertOne | backend/internal/search/providers/mam.go:83-112 | the loop body is the conversion of one torrent |
| Mam.ResultIdReadsBack | backend/internal/search/providers/mam.go:84 | the result's id is the torrent id in decimal, and parses back to it |
| SearchModels.Name | backend/internal/search/providers/mam.go:31-33 | the tracker provider's name is "MyAnonamouse" |
| Registry.StringSetting | internal/search/registry.go:92-93 | a non-empty setting is a string stored under the name |
| Registry.MamFactory | internal/search/registry.go:91-103 | the factory succeeds exactly when the secret is a non-empty string; the provider takes the secret, and the base URL or the public address when the base URL is empty or not a string |
| Registry.MamSchemaRequiresOnlySecret | internal/search/registry.go:105-129 | in the built-in schema only the secret is required, and the base URL's default is the factory's fallback |
| Registry.FieldError | internal/search/registry.go:74-83 | a field fails exactly when it is required and missing or the empty string |
| Registry.Registry.constructor | internal/search/registry.go:20-30 | a new registry knows exactly the built-in tracker type |
| Registry.Registry.Register | internal/search/registry.go:33-36 | the name's factory and type are replaced, others kept |
| Registry.Registry.Create | internal/search/registry.go:39-45 | an unknown type is an error; a known one runs its factory |
| Registry.Registry.GetType | internal/search/registry.go:57-63 | a type is found exactly when it is registered; otherwise an unknown-type error |
| Registry.Registry.GetTypes | internal/search/registry.go:48-54 | exactly one entry per registered type, in some iteration order |
| Registry.Registry.ValidateConfig | internal/search/registry.go:66-87 | an unknown type is an error; otherwise validation passes exactly when every field is satisfied, and a failure reports the first failing field in schema order |
| Registry.DistinctCard | internal/search/registry.go:48-54 | a list without repeats is as long as its set |
| Registry.RegisterThenUse | internal/search/registry.go:33-63 | after registering, looking the name up gives the registered type and creating runs the registered factory |
| Registry.BuiltIn | internal/search/registry.go:20-103 | the built-in tracker is created from a set secret, a configuration without a secret fails validation on the secret, and any other name is unknown |
| SearchAggregate.FirstNamed | internal/search/service.go:33-38 | the chosen provider is the first with the name, and there is none exactly when no provider has it |
| SearchAggregate.SearchProviders | internal/search/service.go:26-57 | an empty query is an error; a named search asks the first provider of that name or reports it not found; an unnamed search returns the answers of the providers that succeed, in order, and fails exactly when that is empty while there are providers |
| SearchAggregate.ListNames | internal/search/service.go:60-66 | one name per provider, in order |
| SearchAggregate.GatheredMembers | internal/search/service.go:43-50 | a result is in the aggregate exactly when some provider answered with it |
| SearchAggregate.FailuresSkipped | internal/search/service.go:44-48 | a failing provider contributes nothing |
| SearchAggregate.GatheredConcat | internal/search/service.go:43-50 | aggregating two lists of providers is aggregating each, in order |
| SearchAggregate.EmptyAnswersFail | internal/search/service.go:52-54 | providers that all answer with nothing make the search fail, though none failed |
| SearchAggregate.Service.constructor | internal/search/service.go:17-21 | the service holds the given providers |
| SearchAggregate.Service.Search | internal/search/service.go:26-57 | the same guard, named-provider and aggregation rules over the service's providers; an unnamed search that gathers nothing from a non-empty list fails with the all-providers-failed error |
| SearchAggregate.Service.ListProviders | internal/search/service.go:60-66 | one name per provider, in order |
| SearchService.ProviderRepo.constructor | internal/persistence/sqlite/providers.go:17-19 | the repository starts with the given rows, each stored under its own type |
| SearchService.ProviderRepo.Create | internal/persistence/sqlite/providers.go:21-50 | an insert succeeds exactly when the type has no row yet, and then adds it; otherwise nothing changes |
| SearchService.ProviderRepo.Update | internal/persistence/sqlite/providers.go:164-201 | the type's row is replaced; a missing row is "not found" and changes nothing |
| SearchService.ProviderRepo.UpdateEnabled | internal/persistence/sqlite/providers.go:203-221 | only the enabled flag of the type's row changes; a missing row is "not found" |
| SearchService.ProviderRepo.Delete | internal/persistence/sqlite/providers.go:223-241 | the type's row goes; a missing row is "not found" |
| SearchService.ProviderRepo.Exists | internal/persistence/sqlite/providers.go:243-254 | true exactly when the type has a row |
| SearchService.ProviderRepo.ListEnabled | internal/persistence/sqlite/providers.go:124-162 | each enabled row is listed once, and only those |
| SearchService.InstantiateFromListed | backend/internal/search/search_service.go:43-51 | every loaded provider was built from some listed configuration, and there are never more providers than configurations |
| SearchService.InstantiateAllBuilt | backend/internal/search/search_service.go:43-51 | when every configuration builds, the providers are the built ones, one each, in listing order |
| SearchService.InstantiateConcat | backend/internal/search/search_service.go:44-51 | building distributes over consecutive parts of a listing, so the listing order is kept |
| SearchService.SearchService.constructor | backend/internal/search/search_service.go:22-34 | the providers are loaded at once; a failed listing leaves none |
| SearchService.SearchService.ReloadProviders | backend/internal/search/search_service.go:37-59 | a failed listing keeps the providers held before; otherwise they are those built from the listing, failures skipped |
| SearchService.SearchService.Search | backend/internal/search/search_service.go:68-103 | the same guard, named-provider and aggregation rules over the loaded providers; an unnamed search that gathers nothing from a non-empty list fails with the all-providers-failed error |
| SearchService.SearchService.ListActiveProviders | backend/internal/search/search_service.go:106-115 | the loaded providers' names, in order |
| SearchService.SearchService.CreateProvider | backend/internal/search/search_service.go:132-159 | an unknown type, then invalid settings, then a failed or positive existence check each stop before any write; the row is written and the providers reloaded only when all pass |
| SearchService.SearchService.UpdateProvider | backend/internal/search/search_service.go:172-190 | type and settings checked first; the providers are reloaded only after the row is updated |
| SearchService.SearchService.DeleteProvider | backend/internal/search/search_service.go:193-200 | the providers are reloaded only after the row is deleted; a failure changes nothing |
| SearchService.SearchService.ToggleProvider | backend/internal/search/search_service.go:203-210 | the providers are reloaded only after the flag is written; a failure changes nothing |
| SearchService.LoadedFromEnabled | backend/internal/search/search_service.go:37-51 | after a reload, every loaded provider was built from an enabled configuration in the repository |
| UseDownloadStore.DownloadStore.constructor | frontend/src/stores/useDownloadStore.ts:27-31 | the store starts empty, idle and not polling |
| UseDownloadStore.DownloadStore.FetchDownloads | frontend/src/stores/useDownloadStore.ts:33-46 | a listing replaces the list; a failure keeps it, records the message and posts it |
| UseDownloadStore.DownloadStore.CreateDownload | frontend/src/stores/useDownloadStore.ts:48-73 | a created download goes first and is returned, and polling starts only when no timer runs; a failure returns nothing and leaves the list and the timer alone |
| UseDownloadStore.DownloadStore.CancelDownload | frontend/src/stores/useDownloadStore.ts:75-91 | after the API agrees, exactly the entries with the id go; a failure changes no list |
| UseDownloadStore.DownloadStore.OrganizeDownload | frontend/src/stores/useDownloadStore.ts:93-108 | after the API agrees, the list is fetched again; a failure only reports |
| UseDownloadStore.DownloadStore.StartPolling | frontend/src/stores/useDownloadStore.ts:110-138 | a no-op while a timer runs; otherwise the new timer is kept |
| UseDownloadStore.DownloadStore.StopPolling | frontend/src/stores/useDownloadStore.ts:140-146 | a running timer is cleared and its handle nulled; a no-op when none runs |
| UseDownloadStore.DownloadStore.PollTick | frontend/src/stores/useDownloadStore.ts:116-135 | a listing replaces the list and polling stops exactly when nothing in it is queued, downloading or organizing; a failed fetch changes nothing |
| UseDownloadStore.DownloadStore.GetActiveDownloads | frontend/src/stores/useDownloadStore.ts:149-152 | exactly the queued, downloading and organizing downloads |
| UseDownloadStore.DownloadStore.GetCompletedDownloads | frontend/src/stores/useDownloadStore.ts:154-155 | exactly the completed downloads |
| UseDownloadStore.DownloadStore.GetFailedDownloads | frontend/src/stores/useDownloadStore.ts:157-158 | exactly the failed downloads |
| UseDownloadStore.NoActive | frontend/src/stores/useDownloadStore.ts:123-130 | the active list is empty exactly when no download is queued, downloading or organizing |
| UseDownloadStore.StatusPartition | frontend/src/stores/useDownloadStore.ts:149-158 | every download is in exactly one of the three getters' lists or is organized |
| UseDownloadStore.ActiveOrder | frontend/src/stores/useDownloadStore.ts:149-152 | the active getter keeps the list's order |
| UseDownloadStore.CancelRemovesId | frontend/src/stores/useDownloadStore.ts:78-80 | cancelling removes exactly the entries with the id and keeps the others in order |
| UseDownloadStore.CreateThenSettle | frontend/src/stores/useDownloadStore.ts:48-146 | creating on an idle store starts polling, and a later tick with nothing active stops it again |
| UseSearchStore.SearchStore.constructor | frontend/src/stores/useSearchStore.ts:22-33 | no results, no error, the initial filters |
| UseSearchStore.SearchStore.Search | frontend/src/stores/useSearchStore.ts:35-59 | a query under two UTF-16 units clears the results and sets the error without a request; a success stores the results sorted by seeders and records the query and provider; a failure clears the results and reports |
| UseSearchStore.SearchStore.UpdateFilters | frontend/src/stores/useSearchStore.ts:61-65 | only the fields the update carries change |
| UseSearchStore.SearchStore.ClearResults | frontend/src/stores/useSearchStore.ts:67-80 | results, error and filters return to their initial values |
| UseSearchStore.SearchStore.GetFilteredResults | frontend/src/stores/useSearchStore.ts:82-108 | a result is shown exactly when it is among the results and passes every set filter |
| UseSearchStore.BySeeders | frontend/src/stores/useSearchStore.ts:46 | sorted results are in descending order of seeders and are the results received, rearranged |
| UseSearchStore.BySeedersStable | frontend/src/stores/useSearchStore.ts:46 | results already in order keep it, ties included |
| UseSearchStore.BySeedersTiesKeepOrder | frontend/src/stores/useSearchStore.ts:46 | for any input, the results with the same number of seeders keep the order they were received in |
| UseSearchStore.Merge | frontend/src/stores/useSearchStore.ts:61-65 | a field the update carries takes the update's value; every other field keeps its value |
| UseSearchStore.Keeps | frontend/src/stores/useSearchStore.ts:85-108 | with every filter off, every result is shown |
| UseSearchStore.InitialFiltersKeepAll | frontend/src/stores/useSearchStore.ts:26-108 | with the initial filters every result is shown |
| UseSearchStore.FilteredOrder | frontend/src/stores/useSearchStore.ts:85 | the filtered view keeps the order of the results |
| UseSearchStore.QueryDoesNotFilter | frontend/src/stores/useSearchStore.ts:51-108 | recording a query and provider does not change what is shown |
| UseSearchStore.MergeLaws | frontend/src/stores/useSearchStore.ts:61-65 | applying an update twice is applying it once, an empty update changes nothing, two updates in a row are their combination |
| UseConfigStore.Rejected | frontend/src/stores/useConfigStore.ts:67-72 | the rejected writes are never more than the writes, and none exactly when every write succeeds |
| UseConfigStore.FirstRejection | frontend/src/stores/useConfigStore.ts:83-88 | the reported reason is that of the first rejected write, and there is none exactly when every write succeeds |
| UseConfigStore.EntriesMap | frontend/src/stores/useConfigStore.ts:62-93 | the update record's keys are exactly the keys written |
| UseConfigStore.Settle | frontend/src/stores/useConfigStore.ts:62-72 | the settled writes split into the rejected count, the fulfilled count and the first rejection |
| UseConfigStore.ConfigStore.constructor | frontend/src/stores/useConfigStore.ts:21-24 | the store starts with no configuration |
| UseConfigStore.ConfigStore.FetchConfig | frontend/src/stores/useConfigStore.ts:26-39 | a fetched configuration replaces it; a failure keeps it and reports |
| UseConfigStore.ConfigStore.UpdateConfig | frontend/src/stores/useConfigStore.ts:41-59 | the key takes the value exactly when the API accepts it, and the result says so |
| UseConfigStore.ConfigStore.UpdateMultipleConfigs | frontend/src/stores/useConfigStore.ts:61-98 | the configuration takes the updates exactly when every write succeeds, an empty batch included; mixed outcomes warn with the counts and a wholly failed batch reports the first rejection, both leaving the configuration unchanged |
| UseConfigStore.ConfigStore.GetConfigValue | frontend/src/stores/useConfigStore.ts:101-104 | a stored value, even "", wins over the default |
| UseConfigStore.FirstRejectionExtend | frontend/src/stores/useConfigStore.ts:83-88 | the first rejection of a longer batch is the shorter batch's, or the last write's when the shorter has none |
| UseConfigStore.FirstRejectionAt | frontend/src/stores/useConfigStore.ts:83-88 | the first rejection is the one at the first rejected index |
| UseConfigStore.WriteThenRead | frontend/src/stores/useConfigStore.ts:41-104 | a read after an accepted write sees the value whatever the default; a rejected write leaves the read as it was |
| UseProviderStore.Providers | frontend/src/stores/useProviderStore.ts:39-41 | an array is the list, an object's providers array is the list, and anything else is empty |
| UseProviderStore.ProviderTypes | frontend/src/stores/useProviderStore.ts:57-59 | an array, else provider_types, else providerTypes, else empty |
| UseProviderStore.ProviderStore.constructor | frontend/src/stores/useProviderStore.ts:28-32 | no providers, no types, idle |
| UseProviderStore.ProviderStore.FetchProviders | frontend/src/stores/useProviderStore.ts:34-51 | the list is normalised from whichever shape arrives; a failure keeps it and reports |
| UseProviderStore.ProviderStore.FetchProviderTypes | frontend/src/stores/useProviderStore.ts:53-68 | the types are normalised likewise; a failure only reports |
| UseProviderStore.ProviderStore.CreateProvider | frontend/src/stores/useProviderStore.ts:70-88 | a created provider is appended and true returned; a failure returns false with the list unchanged |
| UseProviderStore.ProviderStore.UpdateProvider | frontend/src/stores/useProviderStore.ts:90-110 | every entry of the type becomes the updated provider, others untouched; a failure changes nothing |
| UseProviderStore.ProviderStore.DeleteProvider | frontend/src/stores/useProviderStore.ts:112-128 | exactly the entries of the type go, after the API agrees |
| UseProviderStore.ProviderStore.ToggleProvider | frontend/src/stores/useProviderStore.ts:130-151 | matching entries take the flag, after the API agrees |
| UseProviderStore.ProviderStore.TestConnection | frontend/src/stores/useProviderStore.ts:153-171 | the result is the test's verdict, and false when the request fails |
| UseProviderStore.UpdateKeepsOthers | frontend/src/stores/useProviderStore.ts:94-96 | entries of other types are kept as they were, in order |
| UseProviderStore.ToggleKeepsOthers | frontend/src/stores/useProviderStore.ts:134-136 | only the enabled flag changes, and only on entries of the type |
| UseProviderStore.DeleteRemovesType | frontend/src/stores/useProviderStore.ts:116 | exactly the entries of the type go; deleting after a toggle or update of the type gives the same list |
| Lists.Filter | frontend/src/stores/useDownloadStore.ts:79-158 | the kept elements are exactly those that pass, each passing, never more than the input |
| Lists.FilterConcat | frontend/src/stores/useSearchStore.ts:85 | filtering keeps order: a concatenation filters to the concatenation of the filtered parts |
| Lists.FilterAll | frontend/src/stores/useSearchStore.ts:85 | a filter every element passes changes nothing |
| Lists.FilterSplit | frontend/src/stores/useDownloadStore.ts:149-158 | filters by exclusive predicates add up to the filter by either |
| Lists.MapWhere | frontend/src/stores/useProviderStore.ts:94-136 | same length; the selected entries rewritten, the others kept |
| Lists.MapWhereKeepsOthers | frontend/src/stores/useProviderStore.ts:94-136 | a view excluding the selected entries and their rewrites sees no change |
| Lists.SortBy | frontend/src/stores/useSearchStore.ts:46 | the sorted list is a permutation of the input |
| Lists.SortBySorted | frontend/src/stores/useSearchStore.ts:46 | the sorted list is in ascending order of the key |
| Lists.SortBySortedInput | frontend/src/stores/useSearchStore.ts:46 | sorted input comes back unchanged, so equal keys keep their order |
| Lists.InsertKeepsKeyOrder | frontend/src/stores/useSearchStore.ts:46 | inserting keeps the order of the elements of each key and puts the new element before those sharing its key |
| Lists.SortByStable | frontend/src/stores/useSearchStore.ts:46 | for any input, the elements of each key come out in the order they went in |
| GroupSeries.Append | frontend/src/utils/groupSeries.ts:18-22 | appending under a name keeps the record's keys listed once each, in insertion order |
| GroupSeries.AddSeries | frontend/src/utils/groupSeries.ts:21-23 | filing under each series keeps the accumulator well formed |
| GroupSeries.AddResult | frontend/src/utils/groupSeries.ts:16-24 | one step of the reduce keeps the accumulator well formed |
| GroupSeries.Reduce | frontend/src/utils/groupSeries.ts:15-26 | the reduce yields a well-formed record: its keys in insertion order, each once |
| GroupSeries.GroupBySeries | frontend/src/utils/groupSeries.ts:13-38 | one group per key of the record, in the record's key order, each holding its key's books rearranged into ascending order of series number |
| GroupSeries.AddSeriesGet | frontend/src/utils/groupSeries.ts:21-23 | filing a result under its series adds one copy under each entry's name |
| GroupSeries.ReduceGet | frontend/src/utils/groupSeries.ts:15-26 | each list the reduce builds is what the results file under its name, in the results' order |
| GroupSeries.CopiesHold | frontend/src/utils/groupSeries.ts:21-23 | a result is filed under a name exactly when one of its series has that name |
| GroupSeries.MembersHold | frontend/src/utils/groupSeries.ts:15-26 | a name's list holds exactly the results that belong under it: "Standalone" for no series, each series' name otherwise |
| GroupSeries.ReduceKeys | frontend/src/utils/groupSeries.ts:15-26 | a name is a key exactly when something belongs under it |
| GroupSeries.AddSeriesKeys | frontend/src/utils/groupSeries.ts:21-23 | filing adds exactly the names of the result's series as keys |
| GroupSeries.GroupsAreTheMembers | frontend/src/utils/groupSeries.ts:13-38 | each output group holds exactly the results that belong under its name, and every name something belongs under has a group |
| GroupSeries.GroupTotal | frontend/src/utils/groupSeries.ts:13-38 | the groups hold the sum over the results of the larger of 1 and the number of series entries, and their names are distinct |
| GroupSeries.GroupSizesAre | frontend/src/utils/groupSeries.ts:29-37 | groups as long as their lists hold as many books as the lists |
| GroupSeries.AppendTotal | frontend/src/utils/groupSeries.ts:18-22 | an append adds one book |
| GroupSeries.AddSeriesTotal | frontend/src/utils/groupSeries.ts:21-23 | filing under the series adds one book per entry |
| GroupSeries.ReduceTotal | frontend/src/utils/groupSeries.ts:15-26 | the reduce files the sum over the results of the larger of 1 and the number of series entries |
| GroupSeries.SumSizesFrame | frontend/src/utils/groupSeries.ts:15-26 | lists the update does not touch keep the count |
| GroupSeries.SumSizesUpdate | frontend/src/utils/groupSeries.ts:18-22 | replacing one list changes the count by the change in its length |
| Validators.HasAtLeastOne | frontend/src/utils/validators.ts:16-21 | true exactly when some value is a non-empty string at least minLength UTF-16 units long |
| Validators.IsRequired | frontend/src/utils/validators.ts:26-28 | true exactly when the value is given and holds a character that is not whitespace |
| Validators.MinLength | frontend/src/utils/validators.ts:33-35 | counted in UTF-16 units: at least min characters pass, a passing string has at least half of min characters, and text inside the Basic Multilingual Plane passes exactly with min characters |
| Validators.IsInRange | frontend/src/utils/validators.ts:48-54 | a value passes exactly when it lies in the closed interval, which is then non-empty |
| Validators.IsValidEmail | frontend/src/utils/validators.ts:40-43 | the scan accepts exactly the strings of the pattern: no whitespace, one @ after a non-empty local part, and a dot with a character on each side after it |
| Validators.EmailAccepted | frontend/src/utils/validators.ts:41 | what the scan accepts has the pattern's shape |
| Validators.EmailRejected | frontend/src/utils/validators.ts:41 | a string of the pattern's shape passes each test the scan makes |
| Validators.AtLeastOneSingle | frontend/src/utils/validators.ts:16-35 | one value passes exactly when non-empty and long enough; with the default minimum, when non-empty; a required value passes |
| Validators.AtLeastOneConcat | frontend/src/utils/validators.ts:20 | a list passes exactly when one of its parts does |
| Validators.MinLengthLaws | frontend/src/utils/validators.ts:26-35 | a looser minimum accepts more; every string has length at least 0; a whitespace-only string is not required-valid |
| Validators.RangeLaws | frontend/src/utils/validators.ts:48-54 | the range is inclusive at both ends and empty when min exceeds max |
| Validators.EmailExamples | frontend/src/utils/validators.ts:41 | "a@b.c" passes; a missing local part, domain or suffix, a second @ or a space fails |

## Left out

- Every network exchange is an oracle whose outcome is a parameter. This covers the qBittorrent HTTP calls and login, the tracker's search, download and test requests, and the frontend API clients.
- JSON decoding of requests, tracker answers, author lists and series lists is not modelled; the decoded values are the inputs.
- The monitor's ticker loop in `Run`, its goroutines with their five-minute timeout, and the search service's read-write mutex are not modelled. Each tick and each dispatch is a single sequential call.
- The deferred panic recovery in `Organize` is not modelled.
- The frontend's three-second polling timer is not modelled. Each firing is a call to `PollTick`.
- SQL is not modelled; each table is a map. The `ORDER BY` clauses of the listings are not modelled.
- The creation timestamps, log output and notification ids are not modelled.
- The other HTTP handlers are not modelled: health, list, get, cancel, organize, config reads and the connection tests. Each only forwards to a modelled service.
- The search service's `GetAvailableTypes`, `GetType`, `GetProvider` and `ListProviders` are not modelled. They forward to the registry or the repository.
- `TestProvider` is not modelled; its only logic is a network test.
- `isValidUrl` is not modelled. It delegates to the platform's URL parser.
- `fileutil.ValidateTemplate` is not part of this model. Its outcome is a parameter of `Handlers.PreviewPath`.
- `url.Values.Encode` is not modelled; the model keeps the values it would encode. Encoding sorts the keys and percent-escapes them.
- Organization.RequiredSpace: the 1.1 floating-point factor is modelled as a rounded-down eleven tenths of the total.
- Organization.Join: `filepath.Join`'s path cleaning is not modelled; joining concatenates with one slash.
- Organization.ErrorText: the wrapped cause of an error (`%w`, the operating system's or the client's message) is not modelled, because those texts come from outside the model; the message is the fixed text with its sizes and paths.
- Organization.SizeTextScaled: sizes of 2^53 bytes and more are rendered from their exact value, where `%.1f` on a `float64` first rounds the quotient to the nearest double.
- Dto.IsSensitive: lower-casing follows `strings.ToLower` for ASCII and for the two capitals that lower to ASCII letters (U+0130 and U+212A); every other character keeps its value. Go lowers those to non-ASCII characters, so they cannot complete an ASCII fragment either way.
- OrganizationProps.CopyRollback: assumes no destination exists before the copy. In the source, a copy onto an existing file truncates and overwrites it, and a later failure's rollback deletes it, so files that were there before are lost and the filesystem is not restored.
- Template.ParseTemplate: the order-independence lemmas assume brace-free variable values. Sanitising keeps '{' and '}', so an author or title holding "{title}" makes the organized path depend on Go's map order (`Template.NestedBracesOrderMatters` shows the mechanism).
- Handlers.ItemErrorText: for a bad torrent id, a failed fetch and a failed creation the message is the fixed stage prefix only; the ": " and cause text Go appends (strconv's parse error, the tracker's error, the service's or client's error) are not modelled, because those texts come from code outside the model.
- Validators.IsInRange: JavaScript numbers are modelled as reals, so `NaN` (for which the check is always false) and the infinities are not modelled.
- Monitor.IntervalFrom: a setting of zero or a negative number is accepted (`Monitor.NonPositiveIntervalAccepted`); `time.NewTicker` then panics, which is not modelled. The interval is kept in exact seconds: `time.Duration(seconds) * time.Second` wraps around in 64-bit nanoseconds for settings beyond about 9.2·10^9 seconds, and the model does not reproduce that.
- SearchService.ProviderRepo.ListEnabled: leaves the listing order open, where the query orders by display name.
- GroupSeries.GroupBySeries: lists the groups in the order their names were first seen. JavaScript's `Object.entries` puts integer-like names first, in numeric order, and the model does not reproduce that.
- GroupSeries.GroupBySeries: `parseFloat` is a parameter returning an integer, so fractional series numbers and the `NaN` that a non-numeric number gives (every comparison with it false) are not modelled; the books are in ascending order of that integer key.
- UseConfigStore.ConfigStore.UpdateMultipleConfigs: takes the update record as a list of entries in `Object.entries` order. That order decides which rejection is reported first.
