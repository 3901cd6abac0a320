# pxier_fetcher, modelled in Dafny

pxier_fetcher is a proxy-list fetcher. It has four executors, one per
provider, and a factory.

- TSX, STR and CPL each download one or two newline-separated proxy lists
  over HTTP.
- IHuan keeps a session (a statistics cookie and a 32-character key), then
  posts a form and scrapes `a.b.c.d:port` addresses out of the returned page.
- The factory keeps the registered executors and a proxy table. Saving a
  batch touches or inserts one record at a time, keyed on
  (address, dial type).
- The program entry upper-cases each configured executor identifier,
  registers one executor per entry, and formats the log lines' caller
  label.

The model has one module per component:

- `Records`: the proxy record, the dial types and Go's nil-or-slice batch.
- `Text` and `Settings`: the string and configuration helpers.
- `Transport`: the network and decompression boundary, and `readBody`.
- `ListExecutors`: TSX, STR and CPL.
- `Patterns`: the two IHuan scanners.
- `IHuanProvider`: the IHuan executor, as a class whose `statistics` and
  `key` fields change.
- `Executors`: the `Executor` interface and `NewExecutor`.
- `Factories`: the store and the factory, as classes.
- `Entry`: `main.go`.

The network is an oracle. An `Env` carries:

- a function from the request sent to its exchange (an error, or response
  headers and body);
- the three decompressors, as partial functions;
- the current time.

Each loop of the source is a method proved against a function that
specifies it. Examples are the list parse loop, the IHuan record loop,
`saveToDB` and `main`'s selection loop. The properties are proved about
those functions.

Two behaviours of the code are worth noting:

- `readBody` picks the decompressor from the `Content-Type` header alone
  (core/factory.go:76). It never looks at `Content-Encoding`.
- The touch path of `saveToDB` sets only `updated_at`
  (core/factory.go:93-95). It does not reset the error count.

IHuan's `Fetch` also does not stop when deriving the cookie or the key
fails. It goes on to the data request with whatever it holds.

## Model

| member | source | states |
|---|---|---|
| Text.Split | core/executor_tsx.go:90 | `strings.Split` on one separator always gives at least one piece, even for the empty string |
| Text.SplitPieces | core/executor_tsx.go:90 | no piece of a split contains the separator |
| Text.SplitSeparated | core/executor_tsx.go:90 | splitting `a + sep + b` gives the pieces of `a` followed by the pieces of `b` |
| Text.SplitJoin | core/executor_tsx.go:90 | splitting the separator-join of separator-free pieces gives the pieces back |
| Text.JoinSplit | core/executor_tsx.go:90 | joining the pieces of a split gives the original string back |
| Text.NonEmpty | core/executor_tsx.go:93-95 | skipping empty segments keeps only non-empty segments of the input, never more of them |
| Text.NonEmptyAppend | core/executor_tsx.go:92-95 | skipping empty segments distributes over concatenation |
| Text.Contains | core/executor_tsx.go:43 | `strings.Contains` is true exactly when the needle occurs at some index |
| Text.LastIndex | main.go:38 | `strings.LastIndex` is -1 exactly when the character is absent; otherwise it is an index holding the character, with none after it |
| Text.Upper | main.go:54 | `strings.ToUpper` keeps the length and upper-cases each character |
| Text.NatToDecimalRoundTrip | main.go:42 | `%d` of a non-negative number is a non-empty digit string with no leading zero, and reading it back gives the number |
| Records.NewRecord | core/executor_tsx.go:96-103 | a scraped record carries the given address, provider and dial type, no errors, and created and updated times of now |
| Records.Append | core/executor_tsx.go:54 | Go's `append`: the items are those of the first batch, then those of the second; the result is nil exactly when the first is nil and nothing is appended |
| Settings.Config.GetString | core/executor_tsx.go:23 | a missing configuration key reads as the empty string, a present one as its value |
| Settings.Config.GetInt | core/executor_tsx.go:31 | a missing configuration key reads as 0, a present one as its value |
| Settings.OrDefault | core/executor_tsx.go:24-26 | an empty setting is replaced by the default; any other is kept |
| Settings.OrDefaultInt | core/executor_tsx.go:32-34 | a zero setting is replaced by the default; any other is kept |
| Settings.DialerFor | core/executor_tsx.go:41-48 | an empty proxy setting keeps the direct dialer; otherwise the HTTP dialer is chosen exactly when the setting contains "http", else the SOCKS dialer, over the same proxy string |
| Transport.ReadBody | core/factory.go:74-86 | the Content-Type values "br", "gzip" and "deflate" select unbrotli, gunzip and inflate; every other value returns the raw body without error |
| Transport.ReadBodyIgnoresEncoding | core/factory.go:76 | only Content-Type is consulted: responses that agree on it decode alike, and a gzip Content-Encoding with a text Content-Type is read raw |
| ListExecutors.Lines | core/executor_tsx.go:90-95 | the definition of the lines the list loop keeps: the non-empty `\n`-segments in order; its meaning is given by `LinesRoundTrip` and `LinesOfJoin` |
| ListExecutors.ParseList | core/executor_tsx.go:90-105 | the definition of what the list loop builds from a decoded body: one fresh record per kept line; `ParseBody` proves the loop against it, and `ParseListShape` and `ParseListRoundTrip` give its meaning |
| ListExecutors.ToRecords | core/executor_tsx.go:96-103 | one record per line, in order, each the fresh record of that line |
| ListExecutors.ParseBody | core/executor_tsx.go:90-105 | the split-and-skip loop produces exactly the records of the non-empty segments, in order |
| ListExecutors.ParseListShape | core/executor_tsx.go:90-105 | the record count is the number of non-empty segments; each address is its segment verbatim, non-empty, with no newline; each record has the fixed provider and dial type, no errors and the times set to now |
| ListExecutors.ParseListRoundTrip | core/executor_str.go:90-105 | for non-empty newline-free addresses, parsing their newline-join, with or without a trailing newline, gives back exactly those addresses |
| ListExecutors.LinesRoundTrip | core/executor_tsx.go:90-95 | the non-empty segments of a newline-join of non-empty newline-free lines, with or without a trailing newline, are those lines |
| ListExecutors.LinesOfJoin | core/executor_tsx.go:90-95 | the non-empty segments of a newline-join are the non-empty pieces |
| ListExecutors.ParseListTrailingBlank | core/executor_str.go:92-95 | two non-empty, newline-free addresses joined by a newline and followed by two more, `a\nb\n\n`, parse to exactly `[a, b]`: the blank segments yield no record |
| ListExecutors.ParseListKeepsCarriageReturn | core/executor_tsx.go:92-95 | a CRLF line is kept verbatim, carriage return included |
| ListExecutors.ListRequest | core/executor_tsx.go:68-70 | the definition of a list download's request: a GET of the list URL declaring `Content-Encoding: gzip`, with the configured timeout and dialer; `FetchList` sends exactly it |
| ListExecutors.ListOutcome | core/executor_tsx.go:61-105 | the definition of one list download's result: nil on a transport or decode error, else the slice parsed from the decoded body; its meaning is given by `ListOutcomeSpec` and `ListOutcomeEmptyBody` |
| ListExecutors.ListOutcomeSpec | core/executor_cpl.go:56-88 | a download is nil exactly on a transport or decode error; a successful one is the parsed slice of the decoded body, and every record has the asked provider and dial type, zero errors and a non-empty address |
| ListExecutors.ListOutcomeEmptyBody | core/executor_cpl.go:73-74 | an empty decoded body gives an empty, non-nil slice |
| ListExecutors.FetchList | core/executor_tsx.go:61-105 | one GET with `Content-Encoding: gzip`, then decode and parse; the result is the download outcome of that request's exchange |
| ListExecutors.DualFromConfig | core/executor_tsx.go:21-50 | each empty URL is replaced by its default and a zero timeout by 5; set values are kept; the dialer follows the proxy setting |
| ListExecutors.NewTsxSource | core/executor_tsx.go:21-50 | the TSX settings: the TheSpeedX list URLs by default, 5 seconds by default, never a zero timeout |
| ListExecutors.NewStrSource | core/executor_str.go:21-50 | the STR settings: the shiftytr list URLs by default, 5 seconds by default, never a zero timeout |
| ListExecutors.NewCplSource | core/executor_cpl.go:20-44 | the CPL settings: the clarketm list URL by default, 5 seconds by default, set values kept, the dialer from the proxy setting |
| ListExecutors.FetchDual | core/executor_tsx.go:52-55 | TSX and STR `Fetch`: the HTTP list download, then the SOCKS5 list download, the second appended to the first |
| ListExecutors.DualOutcome | core/executor_tsx.go:52-55 | the definition of a two-list `Fetch`: the HTTP download's outcome with the SOCKS5 download's appended; its meaning is given by `DualOutcomeSpec` |
| ListExecutors.DualOutcomeSpec | core/executor_tsx.go:52-55 | the items of the dual outcome are the HTTP items then the SOCKS5 items; a record is HTTP exactly when it comes from the first half; every record carries the provider; a nil half leaves the other half's items intact |
| ListExecutors.FetchCpl | core/executor_cpl.go:46-89 | CPL `Fetch`: the outcome of its single list download, with every record an HTTP record tagged CPL |
| Patterns.FindKey | core/executor_ihuan.go:190 | `keyPattern.Find`: nothing exactly when no 32-character `[a-z0-9]` window exists; otherwise the leftmost such window |
| Patterns.FindKeyShape | core/executor_ihuan.go:17 | a found key is 32 characters, each a lower-case letter or digit |
| Patterns.IpMatchAt | core/executor_ihuan.go:18 | a match of the address pattern at a position spans at least 9 characters and stays inside the text |
| Patterns.IpMatchAtCorrect | core/executor_ihuan.go:18 | the scanner's match at a position is a match of `\d{1,3}\.\d{1,3}\.\d{1,3}\.\d{1,3}:\d{1,5}`, and whenever the pattern matches there the scanner finds the longest such match |
| Patterns.Spans | core/executor_ihuan.go:114 | `FindAll` over any matcher: every span is a match starting at or after the search start, and the spans are increasing and non-overlapping |
| Patterns.SpansLeftmost | core/executor_ihuan.go:114 | every position where a match starts lies inside some reported span: no match is skipped |
| Patterns.IpSpans | core/executor_ihuan.go:114 | the successive leftmost address matches lie inside the text and are increasing and non-overlapping |
| Patterns.FindAllIps | core/executor_ihuan.go:114 | `ipPattern.FindAll` returns the text of each span, in order |
| Patterns.FindAllIpsSound | core/executor_ihuan.go:114 | every extracted address matches the pattern, as the longest match at its start, and has at least 9 characters |
| Patterns.FindAllIpsLeftmost | core/executor_ihuan.go:114 | any pattern match in the body overlaps an extracted span |
| Patterns.FindAllIpsEmpty | core/executor_ihuan.go:114-115 | nothing is extracted exactly when the pattern matches nowhere in the body |
| IHuanProvider.PostBody | core/executor_ihuan.go:89 | the definition of the `Sprintf` POST body: the ten fields joined by `&`, zone and key inserted unescaped; its meaning is given by `PostBodyFieldsRoundTrip` and `PostBodyZoneInjects` |
| IHuanProvider.PostBodyFieldsRoundTrip | core/executor_ihuan.go:89 | when zone and key contain no `&`, the POST body splits into exactly the ten fields `num=<n>`, `port=`, `kill_port=`, `address=<zone>`, `kill_address=`, `anonymity=`, `type=`, `post=`, `sort=1`, `key=<key>` |
| IHuanProvider.PostBodyZoneInjects | core/executor_ihuan.go:89 | the zone is not escaped: a zone holding `&` splits the body into eleven fields, with the part after the `&` as a field of its own |
| IHuanProvider.SplitForm | core/executor_ihuan.go:89 | the `&`-split of the ten-field form is the concatenation of the splits of its fields |
| IHuanProvider.SplitFormWhole | core/executor_ihuan.go:89 | the ten `&`-joined form fields, none of which holds `&`, split back into exactly those fields in order |
| IHuanProvider.SplitFormInjected | core/executor_ihuan.go:89 | a fourth field holding one `&` splits into two pieces, so the form splits into eleven pieces with the two halves at positions 3 and 4 |
| IHuanProvider.StatisticsRequest | core/executor_ihuan.go:152-155 | the definition of `generateStatistics`' GET: the statistics URL with the browser User-Agent and `Accept-Encoding: br`; `GenerateStatistics` sends exactly it |
| IHuanProvider.KeyRequest | core/executor_ihuan.go:174-179 | the definition of `generateKey`'s GET: the key URL, the same User-Agent and encoding, the statistics URL as Referer and the held cookie; `GenerateKey` sends exactly it |
| IHuanProvider.DataRequest | core/executor_ihuan.go:89-96 | the definition of `Fetch`'s form POST: the form body, the form content type, `Accept-Encoding: br`, the User-Agent and the fixed statistics-page Referer; `PostForm` sends exactly it |
| IHuanProvider.CookieStep | core/executor_ihuan.go:156-164 | the statistics cookie is unchanged on a transport error or without a `Set-Cookie` header; otherwise it becomes that header's value |
| IHuanProvider.KeyStep | core/executor_ihuan.go:180-195 | the key is unchanged on a transport error, a decode error or no 32-character window; otherwise it becomes the leftmost window |
| IHuanProvider.KeyStepShaped | core/executor_ihuan.go:190-195 | a key step keeps the key empty-or-well-formed, and either keeps the key or installs a 32-character one |
| IHuanProvider.IpBatch | core/executor_ihuan.go:114-138 | the definition of what `Fetch` makes of a decoded body: nil when no address matches, else one record per match; its meaning is given by `IpBatchNil` and `IpBatchRecords` |
| IHuanProvider.IHuanOutcome | core/executor_ihuan.go:97-138 | the definition of the data POST's result: nil on a transport or decode error, else `IpBatch` of the decoded body; its meaning is given by `IHuanOutcomeNil` |
| IHuanProvider.IpBatchNil | core/executor_ihuan.go:114-122 | the scraped batch is nil exactly when the pattern matches nowhere, and otherwise it is non-empty |
| IHuanProvider.IpBatchRecords | core/executor_ihuan.go:114-138 | there is one record per pattern match; each is the fresh HTTP record, tagged IHuan, of its match; the records are in order of appearance and do not overlap; duplicates are kept |
| IHuanProvider.IHuanOutcomeNil | core/executor_ihuan.go:97-122 | the data request yields nil exactly on a transport error, a decode error, or a body with no address |
| IHuanProvider.BuildRecords | core/executor_ihuan.go:124-138 | the record loop yields one fresh HTTP record tagged IHuan per extracted address, in order |
| IHuanProvider.NewIHuanSource | core/executor_ihuan.go:33-73 | empty URLs default to the ihuan.me pages; zero timeout and fetch count default to 15 and 100; set values are kept; the zone is read as is; the dialer follows the proxy setting |
| IHuanProvider.IHuanExecutor.constructor | core/executor_ihuan.go:56-64 | a new executor holds the configured settings, an empty cookie and key, and has sent nothing |
| IHuanProvider.IHuanExecutor.GenerateStatistics | core/executor_ihuan.go:145-165 | sends one statistics GET; only `statistics` changes, to the cookie step of the reply |
| IHuanProvider.IHuanExecutor.GenerateKey | core/executor_ihuan.go:167-196 | sends one key GET carrying the current cookie; only `key` changes, to the key step of the reply |
| IHuanProvider.IHuanExecutor.Fetch | core/executor_ihuan.go:76-139 | each derivation step runs only while its field is empty, and the key step runs even when the cookie is still empty; the data POST is always sent with the current key; the result is the outcome of that POST; an empty-or-well-formed key stays so |
| IHuanProvider.IHuanExecutor.PostForm | core/executor_ihuan.go:84-138 | sends the data POST with the current key and returns its outcome |
| Executors.Type | core/executor.go:8-11 | every executor reports one of the four known identifiers |
| Executors.KindOf | main.go:54-55 | a registered slot reports nothing exactly when it is nil |
| Executors.NewExecutor | core/executor.go:13-27 | nil exactly for an unknown identifier, compared exactly and case-sensitively; each known identifier builds its own executor kind from the configuration (`BuiltFrom`), which reports back that identifier; IHuan starts as a new session with no cookie, no key and nothing sent |
| Executors.Fetch | core/executor.go:9 | each kind's `Fetch`: the dual outcome for TSX and STR, the single list for CPL, and the IHuan data POST; for IHuan the session moves as the executor's own `Fetch` says, so a cookie or key already held is kept and not fetched again |
| Factories.Touch | core/factory.go:93-95 | the definition of the keyed `updated_at` update on the rows; its meaning is given by `SaveOneExisting` and `TouchAbsent` |
| Factories.Matches | core/factory.go:95 | the definition of the update's affected-row count; its meaning is given by `MatchesZero` |
| Factories.SaveOne | core/factory.go:92-100 | the definition of one turn of `saveToDB`: touch, then insert a fresh row when nothing matched; its meaning is given by `SaveOneExisting`, `SaveOneMissing` and `SaveOneKeys` |
| Factories.Save | core/factory.go:88-102 | the definition of `saveToDB` over a batch, record by record in order; `Factory.SaveToDB` is proved against it, and `SaveKeys`, `SaveKeepsRows`, `SaveNewRows`, `SaveUnique` and `SaveAgain` give its meaning |
| Factories.MatchesZero | core/factory.go:93-95 | the keyed update matches no row exactly when no row holds the key |
| Factories.SaveOneExisting | core/factory.go:93-95 | for a stored key no row is added; the matching rows get `updated_at = now` and keep their error count and every other field; other rows are unchanged |
| Factories.SaveOneMissing | core/factory.go:95-99 | for a new key exactly one row is appended, with the record's address, dial type and provider, no errors and both times now; the earlier rows are unchanged |
| Factories.TouchAbsent | core/factory.go:93-94 | touching a key no row holds changes nothing |
| Factories.SaveOneKeys | core/factory.go:92-101 | one save step adds the record's key to the stored keys and no other |
| Factories.SaveKeys | core/factory.go:92-101 | after saving, the stored keys are the old keys plus the batch's keys |
| Factories.SaveKeepsRows | core/factory.go:92-101 | old rows stay in place; a row whose key is in the batch changes only `updated_at`, and every other row is untouched |
| Factories.SaveNewRows | core/factory.go:95-99 | every appended row is a fresh record with no errors and both times now, for a batch key that had no row before |
| Factories.SaveUnique | core/factory.go:92-101 | if keys were unique before saving, they are unique after, even when the batch repeats a key |
| Factories.SaveSettled | core/factory.go:92-101 | saving changes nothing when every batch key is stored and already touched now |
| Factories.SaveIdempotent | core/factory.go:92-101 | a second identical save at the same instant leaves the rows, and so the row count, as the first left them |
| Factories.SaveAgain | core/factory.go:92-101 | a second save of the same batch, at whatever instant its own clock reads, adds no row; the rows with a batch key get that instant as `updated_at`, and every other row is unchanged |
| Factories.SaveStored | core/factory.go:93-99 | a batch whose keys are all stored already inserts nothing |
| Factories.Store.Update | core/factory.go:93-95 | the keyed update returns the number of rows matched and sets `updated_at` on exactly those rows |
| Factories.Store.Create | core/factory.go:99 | the insert appends the row |
| Factories.FetchInterval | core/factory.go:33-36 | a zero fetch interval becomes 10 seconds; any other is kept |
| Factories.Factory.constructor | core/factory.go:19-26 | a new factory has no executors and holds the given store |
| Factories.Factory.RegisterExecutor | core/factory.go:28-30 | appends the executor, nil included, at the end and keeps the earlier entries |
| Factories.Factory.SaveToDB | core/factory.go:88-102 | the new rows are the reconciliation of the old rows with the batch; a nil or empty batch issues no store operation; otherwise at least one operation per record is issued |
| Entry.CallerLabel | main.go:36-43 | the definition of the caller formatter: `「name:line」` with the base name of the frame's file; its meaning is given by `BaseName` and `ReadCallerLabel` |
| Entry.BaseName | main.go:37-41 | the file name is the suffix after the last `/`, so it holds no `/`; a path without `/` gives the empty name |
| Entry.ReadCallerLabel | main.go:42 | the label `「name:line」` reads back as the base name and the line, for every non-negative line |
| Entry.SelectedKind | main.go:53-56 | an identifier's slot reports its upper-cased form when that form is known, and nothing otherwise |
| Entry.AddSlot | main.go:54-55 | one turn of `main`'s loop: exactly one slot is appended, earlier ones are kept, and the new slot is what `NewExecutor` builds for the identifier; an IHuan slot is a new session, distinct from every earlier one |
| Entry.RegisterAll | main.go:53-56 | `main`'s loop: one slot per identifier, in order, each built by `NewExecutor`; IHuan slots are new, empty sessions, pairwise distinct |
| Entry.Launch | main.go:47-56 | the factory is built first; an empty selection is refused before anything is registered; otherwise exactly one slot per identifier is registered, in list order, and each slot is what `NewExecutor` builds for the upper-cased identifier from the configuration: nil for an unknown one, the configured list executor for STR, CPL and TSX, and an IHuan session allocated here, with no cookie, no key and nothing sent, and distinct from every other IHuan slot |

## Left out

- HTTP, TLS, request headers other than those the model records, and proxy dialers are an oracle from request to exchange. The same request therefore always gets the same answer within one `Env`.
- The brotli, gzip and deflate decoders are opaque partial functions.
- Viper loading and logrus setup and logging are not modelled. Configuration values come in as a `Config` value; log output is dropped.
- `time.Now()` is one `now` parameter per call. The source reads the clock afresh for each field of each record.
- `newDB` (connection pool settings, migration, the panic on a missing URL) is not modelled. The store is an in-memory sequence of rows, opened elsewhere, and its starting rows are arbitrary.
- Factories.Store.Update: reports matched rows. MySQL may report changed rows instead, so a same-second touch could report 0 and insert a duplicate; a failed update also reports 0. Neither is modelled.
- `Factory.Start` is not modelled. It fetches from every executor in its own goroutine on a ticker, with no ordering. Calling `Fetch` on a nil executor there would panic.
- Go's RE2 engine is replaced by two dedicated scanners, for the key pattern and the address pattern.
- `strings.ToUpper` is modelled on ASCII letters only. Go also maps some non-ASCII letters onto ASCII ones, so that "ſtr" becomes "STR" and "ıhuan" becomes "IHUAN" and selects an executor. The model keeps those characters, so `Entry.SelectedKind` gives no executor for such identifiers.
- Go strings are byte strings; here one `char` stands for one character. For ASCII text that is one byte. The caller label's `「` and `」` are the exception: each is one `char` in `Entry.CallerLabel`, but three bytes in Go. No property here depends on byte lengths.
- The `public` constants are not part of this model's sources. The executor identifiers are taken as the distinct upper-case strings "STR", "CPL", "TSX" and "IHUAN". The proofs rely only on their being distinct.
- `saveToDB` sets the error count and times on the batch's own record before inserting it. The model inserts a fresh record with those values and leaves the batch unchanged; no caller reads the batch afterwards.
- The IHuan record loop's `ip == nil` check is not modelled. `FindAll` never returns a nil element.
- The panic on an empty executor selection is the `ok` result of `Entry.Launch` being false.
