# Two-backend blob gateway, modelled in Dafny

The gateway takes a file upload, stores the bytes on two backends (CloudSky,
through a presigned PUT, and Catbox, through one multipart POST), and records
the result in a `files` table under a short random public name. Later it
serves `GET /f/:filename` by fetching the bytes back from the primary
backend, and falls back to the other one when the primary fails.

This project models the decisions the gateway makes, as they are written in
`index.js` and `lib/uploader.js`:

- `values.dfy` (`Values`): bytes, nullable values, settled promises (`Result`)
  and JavaScript truthiness of nullable strings.
- `text.dfy` (`Text`): the JavaScript string built-ins the code relies on
  (`startsWith`, `includes`, `trim`, `split`, `toString()` of a number,
  `toString('hex')` of a buffer). It proves each one's defining properties
  and the round trips that the storage key relies on.
- `identifier.dfy` (`Identifier`): `generateRandomString`, which maps each
  random byte modulo 36 onto `a-z0-9`.
- `uploader.dfy` (`Uploader`): the CloudSky adapter (content type and
  extension resolution, the storage key, the two steps and how each fails),
  the Catbox adapter (when a reply counts as a URL), and the coordinator that
  combines the two settled outcomes into URLs, a primary and a backup.
- `store.dfy` (`Store`): a row of `files`, and what an INSERT can answer.
- `upload.dfy` (`Upload`): `processUpload`, which has three stages:
  1. the size guard;
  2. replication;
  3. the insert loop that retries on a name collision, at most 10 times.

  It also covers the providers summary and `sendUploadResponse`.
- `retrieval.dfy` (`Retrieval`): the `/f/:filename` handler. It covers the
  lookup outcomes, the failover order across the backends, and the headers of
  a served file.

Everything the code obtains from outside is an input: `crypto.randomBytes`,
`Date.now()`, `uuidv4()`, `path.extname`, content sniffing (`fromBuffer`),
the backends' replies, the database's answers and each `fetch`. These are
values or functions passed in:
- `randomBytes(k, n)` is the `k`-th call to `crypto.randomBytes(n)`.
- `dbExecute(k, row)` is the answer to the `k`-th INSERT.
- `fetch(k, url)` is the outcome of the `k`-th fetch of a request.

Each imperative piece of the source is modelled as a method proved against a
function that specifies it:
- `generateRandomString`'s loop is modelled as `GenerateRandomString`.
- `processUpload`'s retry loop is modelled as `CommitRecord`, against `CommitFrom`.
- The field-by-field result object of `uploadToMultipleProviders` is modelled as `UploadToMultipleProviders`, against `Replicate`.
- The `response`/`usedProvider` reassignments of the file route are modelled as `ServeFile`, against `Tried` over `FailoverPlan`.

The properties are then proved about those functions.

The model follows the code as written. In these places the code does
something other than its messages and structure suggest:

- **The 8-character name is dead.** From the fifth collision on, the loop
  draws an 8-character name after each collision. The next turn overwrites
  it with a fresh 6-character name before anything is inserted. Every
  inserted name is therefore 6 symbols plus the extension
  (`CommitNamesHaveSixSymbols`). The extra call to `crypto.randomBytes` is
  still made, so from the sixth insert on each insert uses a later draw
  (`DrawIndex`).
- **A failed primary can be fetched twice.** `usedProvider` is only set on an
  ok response, so the `usedProvider !== ...` guards of the backup steps never
  skip a primary that failed. A failed Catbox primary is always fetched a
  second time, right away, as the Catbox backup
  (`FailedCatboxPrimaryRetriedAtOnce`). A failed CloudSky primary is fetched
  again after Catbox only when Catbox is missing or also fails
  (`FailedPrimaryIsRefetched`, `BothBackendsDown`); when Catbox answers ok it
  is not (`CatboxBackupSparesCloudSkyPrimary`).
- **Catbox ignores the HTTP status.** A reply is accepted when its body text
  starts with `http`, whatever the status (`CatboxIgnoresStatus`). The
  emptiness test before it is subsumed (`CatboxAcceptsIffHttp`).
- **Identifiers are not uniform.** The reduction `byte % 36` gives the
  symbols `a`–`d` 8 of the 256 byte values each, and every other symbol 7
  (`ModuloBias`).
- **`mime.split('/')[1]` is the second `/`-separated piece, not everything
  after the first `/`.** So an unlisted `a/b/c` gets the extension `b`, and
  `a//b` gets `bin` (`SecondPieceIsExtension`, `SecondPieceExamples`).

## Model

| member | source | states |
|---|---|---|
| Identifier.AlphabetChar | index.js:44 | every symbol of the alphabet is a lower-case letter or a digit |
| Identifier.IdentifierOf | index.js:44-49 | the identifier of a byte string: one symbol per byte, symbol `k` being the alphabet symbol at `bytes[k] % 36` (the definition `GenerateRandomString` is proved equal to) |
| Identifier.GenerateRandomString | index.js:43-51 | the result has one symbol per random byte, and symbol `k` is the alphabet symbol at `bytes[k] % 36` |
| Identifier.EveryIdentifierReachable | index.js:44-49 | every string over `a-z0-9` is the identifier of some byte string, so the mapping covers the whole identifier space |
| Identifier.BytesMappingToClosed | index.js:48 | among the bytes below `n`, the number that reduce to symbol `d` modulo 36 is `n / 36`, plus one when `d < n % 36` |
| Identifier.ModuloBias | index.js:48 | of the 256 byte values, 8 map to each of `a`, `b`, `c`, `d` and 7 to every other symbol |
| Text.StartsWith | lib/uploader.js:131 | `s.startsWith(p)`: `p` is no longer than `s` and equals the first `|p|` characters of `s` (a definition) |
| Text.Includes | index.js:249 | `s.includes(t)`: `t` starts `s` or one of its suffixes (a definition; the next two rows prove it means an occurrence at some position) |
| Text.IncludesAt | index.js:249 | an occurrence of `t` at any position of `s` makes `s.includes(t)` true |
| Text.IncludesOccurrence | index.js:249 | `s.includes(t)` holds only when `t` occurs at some position of `s` |
| Text.IncludesInfix | index.js:249 | a string includes anything it contains in its middle |
| Text.ExcludesWithoutLead | index.js:249 | the search is exact: a string without the first character of `t` does not include `t` |
| Text.TrimStart | lib/uploader.js:135 | the result is a suffix of the input; every character dropped is white space; the result does not start with white space |
| Text.TrimEnd | lib/uploader.js:135 | the result is a prefix of the input; every character dropped is white space; the result does not end with white space |
| Text.Trim | lib/uploader.js:135 | the trimmed text is no longer than the input and has white space at neither end |
| Text.TrimIdempotent | lib/uploader.js:135 | trimming a trimmed string changes nothing |
| Text.TrimKeepsPrefix | lib/uploader.js:131-135 | a string that starts with a prefix free of white space still starts with it after trimming |
| Text.Split | lib/uploader.js:66 | `split` yields at least one piece, and no piece contains the separator |
| Text.JoinSplit | lib/uploader.js:66 | joining the pieces of `split` with the separator gives back the string |
| Text.SplitJoin | lib/uploader.js:66 | splitting a join of separator-free pieces gives back the pieces |
| Text.SplitAtFirst | lib/uploader.js:66 | the first piece of `split` is the text before the first separator |
| Text.SplitPart | lib/uploader.js:66 | piece `k` of `split`, empty (falsy, like `undefined`) past the last piece; it never contains the separator |
| Text.Decimal | lib/uploader.js:69 | `Date.now()` is written as a non-empty run of digits without a leading zero |
| Text.DecimalRoundTrip | lib/uploader.js:69 | reading the decimal numeral back gives the number |
| Text.Hex | lib/uploader.js:69 | `toString('hex')` gives two lower-case hexadecimal digits per byte |
| Text.HexRoundTrip | lib/uploader.js:69 | decoding the hexadecimal text gives back the bytes |
| Text.UnhexRoundTrip | lib/uploader.js:69 | every even-length lower-case hexadecimal text is the encoding of the bytes it decodes to |
| Uploader.ProviderName | lib/uploader.js:172-179 | the stored provider name is `cloudsky` or `catbox` |
| Uploader.ProviderNameInjective | lib/uploader.js:172-179 | distinct providers are stored under distinct names |
| Uploader.TableExtensionsArePlain | lib/uploader.js:22-65 | every extension in the type table is a non-empty run of lower-case letters and digits |
| Uploader.ResolveContentType | lib/uploader.js:14-66 | with a declared type, that type is kept and the extension is non-empty and contains no `/` |
| Uploader.ListedTypeUsesTable | lib/uploader.js:66 | a declared type the table lists gets the table's extension |
| Uploader.UnlistedTypeUsesSubtype | lib/uploader.js:66 | an unlisted `top/sub` type gets `sub` as its extension |
| Uploader.UnlistedTypeWithoutSubtype | lib/uploader.js:66 | an unlisted type with no `/`, or nothing after it, gets `bin` |
| Uploader.SecondPieceIsExtension | lib/uploader.js:66 | an unlisted declared type `top/sub...` (with `rest` empty or starting with `/`) gets the second `/`-separated piece `sub` as its extension, or `bin` when that piece is empty |
| Uploader.SecondPieceExamples | lib/uploader.js:66 | an unlisted `a/b/c` gets `b`, not `b/c`, and `a//b` gets `bin` |
| Uploader.UndeclaredTypeIsSniffed | lib/uploader.js:17-20 | with no declared type, sniffing gives both type and extension; without a sniffed type they are `application/octet-stream` and `bin` |
| Uploader.FileKey | lib/uploader.js:69 | the key is `prefix/<decimal now>-<hex of the 4 random bytes>.<ext>` (a definition; the next two rows prove what it promises) |
| Uploader.FileKeyRoundTrip | lib/uploader.js:69 | the storage key `prefix/<now>-<hex>.<ext>` can be parsed back into the timestamp, the random bytes and the extension |
| Uploader.FileKeyInjective | lib/uploader.js:69 | two keys under one prefix are equal only when timestamp, random bytes and extension are all equal |
| Uploader.UploadToCloudSky | lib/uploader.js:10-112 | the presign POST always goes first and carries the key, the type and the size. The PUT is sent only when presign granted a non-empty `uploadUrl`. Success comes only after an ok PUT and returns the file endpoint plus the key. Every failure carries the `CloudSky upload failed: ` prefix |
| Uploader.CloudSkyFailureReasons | lib/uploader.js:82-110 | each failing step gives its own message: a refused presign, a missing `uploadUrl`, a refused PUT |
| Uploader.CatboxAccepts | lib/uploader.js:131 | a reply text is accepted when it is non-empty and starts with `http` (a definition) |
| Uploader.CatboxAcceptsIffHttp | lib/uploader.js:131 | a Catbox reply is accepted exactly when its text starts with `http` |
| Uploader.UploadToCatbox | lib/uploader.js:114-140 | one POST of `file.<sniffed ext or bin>`. Success comes exactly when the reply text is accepted, and returns the trimmed text, which still starts with `http`. Failures carry the `Catbox upload failed: ` prefix |
| Uploader.CatboxIgnoresStatus | lib/uploader.js:123-133 | the reply's HTTP status does not change the outcome |
| Uploader.UrlField | lib/uploader.js:157-169 | a result field holds the adapter's value when it fulfilled and stays `null` when it rejected (a definition) |
| Uploader.CombineOutcomes | lib/uploader.js:150-185 | fails exactly when neither URL is truthy, with `Both CloudSky and Catbox upload failed`. Each URL field comes from its own adapter only. CloudSky is primary exactly when its URL is set. Catbox is backup exactly when both are set. The primary always names a set URL |
| Uploader.Replicate | lib/uploader.js:145-185 | both adapters run once: two or three requests, the presign POST first and the Catbox POST of the same bytes last; the result combines the two settled outcomes |
| Uploader.UploadToMultipleProviders | lib/uploader.js:142-186 | filling the result object field by field gives exactly the combination of the two settled adapters, with the requests both sent |
| Uploader.ReplicationReflectsAdapters | lib/uploader.js:145-185 | the adapters never settle to an empty URL. So replication fails exactly when both adapters fail, and the primary is CloudSky exactly when CloudSky succeeded |
| Upload.IsCollision | index.js:249 | an insert error is a collision when its message is non-empty and includes `UNIQUE` or `constraint` (a definition) |
| Upload.CollisionMarkers | index.js:249 | any insert error message containing `UNIQUE` or `constraint` is treated as a collision |
| Upload.CollisionNeedsMarker | index.js:249 | conversely, a collision message is non-empty and has `UNIQUE` or `constraint` at some position |
| Upload.UpperCaseCodeIsNoCollision | index.js:249 | the markers are matched case-sensitively: the bare code `SQLITE_CONSTRAINT` is not a collision and is rethrown |
| Upload.PublicUrl | index.js:227 | the public URL is `protocol://host/f/<name>` (a definition) |
| Upload.RowFor | index.js:230-243 | the inserted row holds the upload id, the candidate name, original name, size and declared type, both URLs, the primary's stored name and the public URL (a definition) |
| Upload.DrawIndex | index.js:226-255 | insert `j` uses the `j`-th call to `crypto.randomBytes` up to the fifth insert, then `2j - 4`, counting the dead 8-symbol draws (a definition) |
| Upload.DrawsAreFresh | index.js:226-255 | every insert uses a later draw than the one before; from the sixth insert on, exactly one dead draw lies between consecutive inserts |
| Upload.CandidateName | index.js:226 | the name tried at insert `j` is the 6-symbol identifier of draw `DrawIndex(j)` plus the extension (a definition) |
| Upload.Retried | index.js:248-257 | the loop retries after an insert that threw an error whose message is a collision; success and any other error end it (a definition) |
| Upload.CommitFrom | index.js:225-260 | the insert loop makes at most 10 inserts, at least one, and a committed row is the last one inserted |
| Upload.CommitInsertsCandidates | index.js:226-243 | insert `j` is the row under the name drawn for attempt `j` |
| Upload.CommitRetriesOnlyOnCollision | index.js:248-258 | every insert except the last was answered with a collision |
| Upload.CommitOutcomeFromLastInsert | index.js:225-263 | the answer to the last insert decides the outcome. Inserted commits that row. Any other error is rethrown unchanged. A collision ends the loop only at the tenth insert, with `Failed to generate unique filename` |
| Upload.AlwaysCollidingStore | index.js:221-263 | a store that reports a collision every time sees exactly 10 inserts, and the upload fails with the exhaustion error |
| Upload.CandidateRowShape | index.js:226-227 | each candidate name is 6 identifier symbols plus the extension, and its public URL is `protocol://host/f/<name>` |
| Upload.CommitNamesHaveSixSymbols | index.js:226-255 | every inserted name is 6 identifier symbols plus the extension, even after the fifth collision, and its row's public URL points at it |
| Upload.Summary | index.js:269-273 | each backend is reported as `success` or `failed` |
| Upload.SummaryReflectsAdapters | index.js:269-273 | on a successful replication, the summary reports each backend as its adapter ended, and the primary is `cloudsky` exactly when CloudSky succeeded |
| Upload.ResultOf | index.js:262-274 | a committed row yields its public URL, its name and the providers summary; a failure passes through unchanged (a definition; `ProcessUpload` states it for the whole upload) |
| Upload.DrawCandidate | index.js:226-227 | the turn's name is the 6-symbol identifier of its draw plus the extension, and its row is that attempt's candidate |
| Upload.CommitRecord | index.js:219-264 | the imperative loop makes exactly the inserts of `CommitFrom` over the candidate rows and ends with its outcome |
| Upload.ProcessUpload | index.js:195-275 | an oversized file fails with the limit message before any request or insert. A failed replication fails with `Upload failed: ` and its message, and makes no insert. Otherwise the inserts and the outcome are those of the insert loop, and a success returns the last inserted row's name and URL |
| Upload.SendUploadResponse | index.js:277-293 | the reply is JSON exactly when the Accept header mentions `application/json` or the path mentions `api.php`. Either reply carries the same URL |
| Upload.JsonWhenAsked | index.js:278-287 | any Accept header listing `application/json`, or any path containing `api.php`, gets the JSON reply |
| Retrieval.PrimarySource | index.js:121-144 | there is a primary step exactly when the row names `cloudsky` with a truthy CloudSky URL or `catbox` with a truthy Catbox URL; it fetches that backend's own URL |
| Retrieval.FailoverPlan | index.js:121-172 | at most three sources are ever fetched |
| Retrieval.TriedFrom | index.js:121-172 | the fetches made are a prefix of the plan, and none are made only when the plan is empty |
| Retrieval.StopsAtFirstOk | index.js:146-172 | after failures up to an ok response, exactly the sources up to that response are fetched |
| Retrieval.ExhaustsWhenAllFail | index.js:146-172 | when every fetch fails, every source of the plan is fetched |
| Retrieval.ServedIffSomeOk | index.js:174-177 | the file is served exactly when some source in the plan answers ok, and then by the first such source |
| Retrieval.FailedPrimaryIsRefetched | index.js:146-172 | when nothing answers ok, a primary that is set is fetched again as a backup |
| Retrieval.FailedCatboxPrimaryRetriedAtOnce | index.js:132-159 | a Catbox primary that does not answer ok is fetched a second time right after, by the Catbox backup step |
| Retrieval.CatboxBackupSparesCloudSkyPrimary | index.js:121-172 | with a CloudSky primary that fails and a Catbox backup that answers ok, the fetches are exactly CloudSky then Catbox and the file is served |
| Retrieval.BothBackendsDown | index.js:121-177 | with CloudSky as primary and both backends answering 500, the fetches are CloudSky, Catbox, CloudSky, and no file is served |
| Retrieval.UploadedRowTriesPrimaryFirst | index.js:121-130 | a row written after a successful replication is fetched from its primary first, and only from it when it answers ok |
| Retrieval.FileHeaders | index.js:180-185 | six headers. Content-Type is the row's type, or `application/octet-stream` when that is null or empty, so never empty. Content-Length is the decimal text of the size. `X-Served-By` names the provider |
| Retrieval.ContentLengthIsSize | index.js:181 | the Content-Length header is a run of digits that reads back as the stored size |
| Retrieval.ResponseOk | index.js:145 | `response && response.ok`: there is a response and its status is 2xx (a definition; the same test is at lines 161 and 175) |
| Retrieval.TryFetch | index.js:122-131 | the fetch is recorded. A response, ok or not, replaces the current one, and a thrown fetch leaves the previous response in place. Only an ok response sets the provider used |
| Retrieval.FetchPrimary | index.js:121-144 | after the primary step, the sources fetched follow the plan |
| Retrieval.FetchBackups | index.js:146-172 | after the backup steps, the sources fetched follow the plan, and without an ok response the whole plan was fetched |
| Retrieval.ServeRecord | index.js:117-186 | the fetches are exactly the plan's prefix up to the first ok response. The reply streams that response with the row's headers and its provider. With no ok response the reply is 502 |
| Retrieval.ServeFile | index.js:104-193 | a failed lookup is answered 500 and a missing row 404, both without any fetch. A found row is served by the failover |

## Left out

- `lib/github.js` and `lib/short.js` are not part of this model. They consist only of calls to external services, git commands and file-system walks.
- Express setup, multer parsing, `initDB` and its middleware, the `POST /upload` route wrapper and its error replies, and EJS rendering are not modelled. The rendered page is a value (`RenderedPage`).
- Network I/O and streaming are not modelled. Every `fetch`, the FormData body and `response.body.pipe(res)` are inputs or values. A served reply names the fetch whose body is streamed.
- `Promise.allSettled` concurrency is not modelled. Replication takes both settled outcomes as inputs and lists CloudSky's requests before Catbox's.
- `fs.existsSync`/`fs.unlinkSync` cleanup of the temporary file and all console logging are not modelled, because they affect no result.
- `getFetch()` failing is not modelled. In the file route it would be answered 500, and in the adapters it would be a thrown step.
- `Uploader.ResolveContentType`: keys inherited from `Object.prototype` (for example a declared type `toString`) are not modelled. The table is a map of its own entries only.
- `Uploader.UploadToCloudSky`: a missing declared type is represented by the empty string. In the source both `null` and `""` are falsy and take the sniffing branch.
- `Retrieval.FileHeaders`: `Content-Length` is the decimal text of the stored size. Node's check of header characters is not modelled; it throws on an original name with characters it refuses, and the route answers 500.
- `Upload.ProcessUpload`: the size guard is modelled as written. multer is configured with the same 200 MB limit and normally rejects a larger file before the guard runs, which the model does not capture.
- `Store.FileRecord`: the `uploadDate` column is filled by the database and is not modelled.
- `path.extname`, `uuidv4`, `Date.now()`, `crypto.randomBytes` and `fromBuffer` are not defined in the model. Their results are inputs.
