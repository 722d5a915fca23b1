# gladia-cli-client core, modelled in Dafny

This project models the sequential core of `gladia-cli-client`, a command-line
client for the Gladia speech-transcription service, and proves properties of
that model. The modelled parts:

- **Job table.** `internal/repo/database/logic.go` is the `requests` table of
  `Task` rows with an AUTOINCREMENT id. It becomes the class
  `JobStore.Database`, which holds a `seq<Task>` sorted by id and the counter
  `lastId`. The pure functions `Select`, `Delete` and `Updated` give the row
  semantics of the SQL statements.
- **Use cases.** `internal/logic/usecase/usecase.go` becomes the class
  `Usecase.Usecase`:
  - `New` folds the validating options over the zero value;
  - `Upload` opens, uploads and inserts;
  - `Transcription` looks the row up and starts a remote job, without writing
    back;
  - `List` and the stubs.
- **Gladia client.** `internal/logic/client/client.go` becomes:
  - `Client.NewGladiaClient`, a loop of validating setters over the defaults,
    specified by the fold `Client.ApplyAll`;
  - `Client.GladiaClient.AwaitTranscriptionResult`, a ticker loop specified by
    the recursive function `Client.Await`. It updates `gc.result` only when a
    job is done.
- **Audio processor.** `internal/audio/processor.go` becomes:
  - `Audio.PollingResult`, whose loop also races a timeout, specified by
    `Audio.Polling`;
  - the function `Audio.Info`;
  - `Audio.InitTranscription`, which builds the request body;
  - `Audio.List`.
- **Logger.** `pkg/logger/logger.go` becomes the level gate `Logging.Emits`,
  the flag decoding `Logging.Outputs`, `NewLogger`, `DefaultLogger` and `Close`.
- **Status checks.** `httpErrorParse` (`internal/clients/http/utils.go`) and
  `HttpErrorParse` (`pkg/networking/networking.go`) become
  `HttpStatus.ErrorParse` and `HttpStatus.NetworkingErrorParse`. The model
  includes the expected code at every call site.

How the outside world enters the model:

- **Time and the remote side** are inputs. A polling loop reads a finite
  sequence of events: `Cancel` when the context is done, `Tick` when the ticker
  fires, and, in the processor, `Timeout` when `time.After` fires. The k-th
  status fetch returns `remote(k)`. A run whose events run out ends as
  `Waiting`, where the Go loop would block.
- **HTTP calls in the use cases and the processor.** The client's answer to a
  single call, and the outcome of opening a file, are parameters (`reply`,
  `openErr`).
- **URL parsing.** `Client.Apply`'s `WithBaseUrl` (client.go:43) is the only
  call of the package function `url.Parse`. Its result text, after
  `String()`, is the parameter `parse: string -> Result<string>`.
  `InitTranscription` (processor.go:78-81) and `Transcription`
  (usecase.go:124-131) first declare `var url *url.URL`. That variable hides
  the package, so their `url.Parse` is the method `(*url.URL).Parse` on a nil
  pointer. `Remote.ResolveOnNil` models this call:
  - a parse error is returned;
  - a reference without a scheme makes `ResolveReference` read the nil
    base, which ends the process;
  - otherwise the resolved text is used.

  The parameter `resolve` gives the parse error or the resolved text. The
  scheme test is modelled: `Remote.Scheme` is net/url's scan for a scheme.
- **Errors.** `Common.Error` has one constructor per way the core builds an
  error: `errors.New`, `"error: %s"`, `"... within: %d"`, and `"%s: %w"`
  wrapping.

The model follows the code in these behaviours, which a reader might not
expect:

- A failed upload is not stored. The failure record is built and dropped.
- A successful upload stores an empty `status`, not "uploaded".
- `Transcription` never writes the job id back to the store, and it always
  returns the empty string.
- The processor's timeout timer is re-created on every wait, not armed once
  (see Findings).
- Both polling loops wait one tick before the first fetch.
- An empty audio URL, or one without a scheme, crashes `InitTranscription`
  and `Transcription` with a nil dereference. It yields neither an error nor
  a request.

## Model

| member | source | states |
|---|---|---|
| HttpStatus.ErrorParse | internal/clients/http/utils.go:27-34 | nil iff the status code equals the expected code; otherwise always the fixed "unexpected status code" error |
| HttpStatus.NetworkingErrorParse | pkg/networking/networking.go:29-38 | prints the status text and code first; the verdict is the same as httpErrorParse's |
| HttpStatus.OnlyStatusCodeConsulted | pkg/networking/networking.go:31-35 | two answers with the same code get the same verdict whatever their status text; the printed lines do not influence it |
| HttpStatus.RejectionsIndistinguishable | internal/clients/http/utils.go:29-31 | every rejected code yields one and the same error value |
| HttpStatus.ExactlyOneCodeAccepted | internal/clients/http/utils.go:27-34 | for every call of either client, two accepted answers have the same status code |
| HttpStatus.CallCodes | internal/clients/http/client.go:77-296 | upload, status fetch and listing accept only 200; job start only 201; download and delete only 202; the second client's three calls use the same codes |
| HttpStatus.NoPartialSuccess | internal/logic/client/client.go:175-178 | a 201 or 204 answer to a status fetch is rejected exactly like a 500 |
| Logging.LevelsOrdered | pkg/logger/logger.go:12-18 | DEBUG = 0 < INFO < WARN < ERROR < FATAL = 4 |
| Logging.DebugOnlyAtDebug | pkg/logger/logger.go:90-100 | Debug and DebugF write iff the level is exactly DEBUG |
| Logging.EmitsIffAtMostSeverity | pkg/logger/logger.go:102-148 | a call of severity s writes iff level <= s; Fatal and FatalF only gate a write and do not end the process |
| Logging.AboveFatalSilent | pkg/logger/logger.go:138-148 | a level above FATAL silences every call |
| Logging.EmitsMonotone | pkg/logger/logger.go:90-148 | lowering the level never silences a call that was written |
| Logging.FormattedAgreesWithPlain | pkg/logger/logger.go:90-148 | each formatted variant has the same gate as its plain one |
| Logging.Outputs | pkg/logger/logger.go:65-76 | stdout is a sink iff the STD bit is set, the file iff the FILE bit is set; at most the two, stdout first |
| Logging.OutputsIgnoreHighBits | pkg/logger/logger.go:22-25 | only the two low flag bits (STD = 1, FILE = 2) are consulted |
| Logging.NoFlagNoSink | pkg/logger/logger.go:65-78 | no flag gives no sink; both flags give stdout and then the file |
| Logging.Logger.constructor | pkg/logger/logger.go:58-62 | the struct literal: the given level, stdout, a no-op close |
| Logging.Logger.Close | pkg/logger/logger.go:86-88 | nil for the no-op close; otherwise the result of closing the opened log file |
| Logging.DefaultLogger | pkg/logger/logger.go:47-53 | level DEBUG, stdout, a no-op close |
| Logging.NewLogger | pkg/logger/logger.go:55-84 | sinks as decoded by Outputs; the file's Close is installed iff file output is asked for; a failed open ends construction (log.Fatal) |
| JobStore.Select | internal/repo/database/logic.go:61-83 | the first matching row in id order if there is one, else sql.ErrNoRows |
| JobStore.Delete | internal/repo/database/logic.go:123-131 | keeps exactly the rows that do not match; never grows the table |
| JobStore.Updated | internal/repo/database/logic.go:102-121 | the row with that id gets the five new column values and keeps its id and file path; every other row is unchanged |
| JobStore.Database.New | internal/repo/database/logic.go:14-28 | opening a file runs CreateTable: an existing table is kept, otherwise the table is empty |
| JobStore.Database.CreateTable | internal/repo/database/logic.go:30-43 | CREATE TABLE IF NOT EXISTS: idempotent, an existing table is left as it is |
| JobStore.Database.Insert | internal/repo/database/logic.go:45-59 | ignores the incoming id, stores the row under the next counter value and returns that value |
| JobStore.Database.GetByID | internal/repo/database/logic.go:61-71 | the row with that id, or sql.ErrNoRows iff there is none |
| JobStore.Database.GetByTaskID | internal/repo/database/logic.go:73-83 | the first row whose task_id matches, or sql.ErrNoRows iff there is none |
| JobStore.Database.GetAll | internal/repo/database/logic.go:85-100 | every row, in ascending id order |
| JobStore.Database.Update | internal/repo/database/logic.go:102-121 | the row with that id is overwritten as Updated says; the counter is unchanged |
| JobStore.Database.RemoveByID | internal/repo/database/logic.go:123-126 | drops the row with that id and nothing else |
| JobStore.Database.RemoveByTaskID | internal/repo/database/logic.go:128-131 | drops every row with that task_id and nothing else |
| JobStore.DeleteKeepsWellFormed | internal/repo/database/logic.go:123-131 | deleting keeps the ids in range and strictly ascending |
| JobStore.FreshIdIsNew | internal/repo/database/logic.go:33 | the next id is non-zero and differs from every id assigned before, including those of deleted rows |
| JobStore.SelectByIdFindsThatRow | internal/repo/database/logic.go:61-71 | in a well-formed table, a lookup by a row's id finds that row |
| JobStore.InsertThenGet | internal/repo/database/db_test.go:58-143 | after an insert, a lookup by the new id returns the inserted fields with that id, and lookups of other ids are unaffected |
| JobStore.DeleteThenSelect | internal/repo/database/db_test.go:244-302 | after a delete, a lookup with the same key fails with sql.ErrNoRows |
| JobStore.DeleteByIdKeepsOthers | internal/repo/database/logic.go:123-126 | deleting one id leaves the lookups of every other id unchanged |
| JobStore.DeleteMissingIsNoOp | internal/repo/database/logic.go:123-131 | deleting a key that matches no row changes nothing |
| JobStore.UpdateThenGet | internal/repo/database/db_test.go:305-345 | after an update, the row has the new column values with its id and file path unchanged |
| JobStore.UpdateMissingIsNoOp | internal/repo/database/logic.go:102-121 | updating an id no row has changes nothing |
| JobStore.InsertDeleteListScenario | internal/repo/database/logic.go:45-126 | three inserts and a delete of id 2 leave ids [1, 3] in listing order |
| JobStore.UpdateScenario | internal/repo/database/db_test.go:305-345 | the concrete update of the test gives exactly its expected row |
| JobStore.NoReuseScenario | internal/repo/database/logic.go:33 | after deleting id 1, the next insert gets id 2 and id 1 stays absent |
| JobStore.RunSession | internal/repo/database/logic.go:33-131 | any session of inserts and deletes hands out ascending ids. Each is above every id stored or handed out before, so no id is ever handed out twice. Every row above the old counter came from one of them |
| Remote.TranscriptionBody | internal/audio/processor.go:86-100 | the audio URL, diarization, languages, translation and target languages come from the inputs; sentiment analysis is always on; subtitles and code switching are always off |
| Remote.SchemeCharacterised | internal/audio/processor.go:78-81 | the scan finds a scheme iff some ':' is preceded by a letter and then only scheme characters; the scheme is the text before the first such ':' |
| Remote.SchemeExamples | internal/audio/processor.go:78-81 | "" and "host/a.wav" have no scheme; "https://x.io/a.wav" has the scheme "https" |
| Remote.ResolveOnNil | internal/logic/usecase/usecase.go:124-131 | a parse error is returned; a parsed reference without a scheme dereferences the nil base; a reference with a scheme gives its resolved text |
| Remote.SchemelessReferencesDereferenceNil | internal/audio/processor.go:78-81 | "" and "host/a.wav", which url.Parse accepts, dereference the nil base; an https URL without a parse error resolves |
| Remote.BodyIgnoresSentimentSetting | internal/logic/usecase/usecase.go:136-150 | the configured sentiment and enhancement switches do not affect the body |
| Remote.OnTick | internal/logic/client/client.go:198-206 | a failed fetch stops with its error, "error" stops with the error code, "done" finishes with the response, any other status keeps polling |
| Remote.QueuedAndProcessingKeepPolling | internal/audio/processor.go:123-131 | "queued", "processing" and a differently cased "Done" keep a loop polling |
| Client.Apply | internal/logic/client/client.go:31-64 | WithLogger(nil) and an unparsable base URL fail; otherwise exactly the named field is overwritten (the base URL with its parsed form) |
| Client.FirstFailure | internal/logic/client/client.go:73-77 | none iff no setter fails |
| Client.FoldFailsWithFirstFailure | internal/logic/client/client.go:73-77 | the fold fails iff some setter fails, with the first failing setter's error, whatever fields it starts from |
| Client.LaterSettersIgnored | internal/logic/client/client.go:73-77 | setters after the first failing one have no effect |
| Client.AppendSetter | internal/logic/client/client.go:73-77 | folding one more setter is applying it to the fold's result |
| Client.LastTokenAndTimeoutWin | internal/logic/client/client.go:52-64 | a trailing WithApiToken or WithTimeout always succeeds and decides its field |
| Client.SkipQuietPrefix | internal/logic/client/client.go:193-208 | ticks whose fetches keep polling are consumed one fetch each and change nothing else |
| Client.EndAfterQuietPrefix | internal/logic/client/client.go:195-205 | after such ticks: cancellation gives "timeout waiting result" without another fetch; a failed fetch ends the loop with its error, unretried; "error" ends it with the error code; "done" ends it with the response |
| Client.WaitingIffAllQuiet | internal/logic/client/client.go:193-208 | the loop is still waiting iff every event was a tick that kept polling, and then it made one fetch per event |
| Client.FetchesCountTicks | internal/logic/client/client.go:193-208 | at most one fetch per event, and the k-th fetch is made on the k-th event, which is a tick |
| Client.GladiaClient.constructor | internal/logic/client/client.go:67-71 | the defaults: the default logger, timeout 0, base URL "https://api.gladia.io" |
| Client.GladiaClient.Set | internal/logic/client/client.go:31-64 | runs one setter: on success the fields are as Apply says, on failure unchanged and its error returned |
| Client.GladiaClient.AwaitTranscriptionResult | internal/logic/client/client.go:188-209 | the outcome and fetch count are those of Await; gc.result is set to the response's result only when it ends with "done" and is untouched otherwise |
| Client.NewGladiaClient | internal/logic/client/client.go:66-81 | fails iff some setter fails, with the first failure's error; on success the fields are the fold over the defaults and the http.Client gets the final timeout |
| Audio.PollingResult | internal/audio/processor.go:111-136 | the outcome and fetch count are those of Polling: cancellation and the timeout end it before a fetch, and a tick acts as OnTick says |
| Audio.PollingAgreesWithAwait | internal/audio/processor.go:119-131 | without a timeout event, the processor's loop makes the same fetches and decisions as the client's, returning only resp.Result |
| Audio.RearmedTimeoutNeverWins | internal/audio/processor.go:132-133 | because the timer is re-armed on each wait, ticks at an interval shorter than the timeout rule the timeout out however long the loop runs |
| Audio.TimeoutRearmedEachWait | internal/audio/processor.go:132-133 | a concrete timeline with three one-second ticks and a two-second timeout: after three seconds the loop is still waiting, with no timeout error |
| Audio.DeadlineBoundsWaiting | internal/audio/processor.go:132-133 | with one timer armed before the loop, the total waiting time never exceeds the timeout |
| Audio.DeadlineExcludesRearmedTimeline | internal/audio/processor.go:132-133 | under one deadline, the three-tick timeline above is impossible |
| Audio.Info | internal/audio/processor.go:138-154 | a failed fetch is wrapped as "failed get task result"; "done" gives resp.Result; "error" and every other status give (nil, nil) |
| Audio.InfoAgainstOneTick | internal/audio/processor.go:138-154 | Info and one tick of the loop agree on "done"; Info wraps the fetch error the loop returns unchanged; Info reports nothing where the loop fails on "error" or keeps waiting |
| Audio.PollingNeverObtainsWithoutDone | internal/audio/processor.go:129-130 | a result is obtained only from the last fetch, and only when its status was "done" |
| Audio.InitTranscription | internal/audio/processor.go:77-109 | an unparsable URL returns ("", "", err) with no request. A URL that parses without a scheme panics, with no request and no return. Otherwise the body is sent, and the result URL and id are returned, or ("", "", err) when the client fails |
| Audio.InitTranscriptionPanicsWithoutScheme | internal/audio/processor.go:78-81 | an empty audio URL, or a host path typed without a scheme, panics instead of returning |
| Audio.InitTranscriptionBodyFlags | internal/audio/processor.go:86-100 | every body sent has sentiment analysis on, subtitles and code switching off, the configured languages, and a URL that has a scheme |
| Audio.Summaries | internal/audio/processor.go:172-186 | one summary per item, in order, indexed by position, with the two placeholder texts |
| Audio.List | internal/audio/processor.go:156-189 | always returns ""; the error is nil iff the client call succeeded, otherwise the client's error wrapped as "failed get tasks listt" |
| Usecase.Wire | internal/logic/usecase/usecase.go:34-69 | a nil logger, client or database fails with its fixed message; WithFileRepo always succeeds; otherwise exactly the named field is set |
| Usecase.WireAllFailsAtFirstRejected | internal/logic/usecase/usecase.go:71-79 | construction succeeds iff no option is rejected, and otherwise fails with the first rejected option's error |
| Usecase.WireAllLastWins | internal/logic/usecase/usecase.go:71-79 | one more accepted option is applied on top of the earlier ones |
| Usecase.UploadedRow | internal/logic/usecase/usecase.go:96-110 | the stored row has the path and the audio URL, and empty result URL, task id, status and results |
| Usecase.Usecase.constructor | internal/logic/usecase/usecase.go:72 | every field is nil |
| Usecase.Usecase.Apply | internal/logic/usecase/usecase.go:34-69 | runs one option: on success the fields are as Wire says, on failure unchanged and its error returned |
| Usecase.Usecase.Upload | internal/logic/usecase/usecase.go:82-120 | a failed open returns (-1, wrapped error) without calling the client; a failed upload returns (-1, its error) and stores nothing; success inserts exactly one row and returns its id |
| Usecase.Usecase.Transcription | internal/logic/usecase/usecase.go:123-162 | a failed lookup or parse returns its error with no request. A stored URL that parses without a scheme panics. Otherwise the body is sent. The job id and result URL go only into a local copy, and the returned text is always "" |
| Usecase.Usecase.List | internal/logic/usecase/usecase.go:182-191 | the rows are read and dropped: (nil, nil) |
| Usecase.Usecase.Dump | internal/logic/usecase/usecase.go:165-179 | a stub returning nil |
| Usecase.Usecase.PollingResult | internal/logic/usecase/usecase.go:193 | a stub returning nil |
| Usecase.Usecase.Info | internal/logic/usecase/usecase.go:195 | a stub returning the zero Task and nil |
| Usecase.New | internal/logic/usecase/usecase.go:71-79 | fails iff some option is rejected, with the first rejection's error; on success the fields are the fold over the zero value |
| Usecase.EmptyUrlTranscriptionScenario | internal/logic/usecase/usecase.go:106-131 | an upload answered with an empty audio URL stores it as row 1, and transcribing that row panics |
| Usecase.UploadTwiceScenario | internal/logic/usecase/usecase.go:116-119 | uploading one file twice stores two rows with ids 1 and 2; paths are not deduplicated |

## Left out

- HTTP transport, request building, JSON coding and multipart bodies are left out: they are network and library code. This covers `internal/clients/http/client.go`, the bodies of `AudioUploadFromFile`, `InitTranscription` and `TranscriptionResult` in `internal/logic/client/client.go`, `MakeMultipartBody`, `JsonDumpS` and `PrintJson`. A call is its outcome, and its status check is modelled in `HttpStatus`.
- SQLite and the sql driver are left out. The table is modelled by its contents, so driver, scan and I/O failures do not arise.
- `JobStore.Database.Insert`: the `log.Fatal` on a failed INSERT becomes the precondition that the counter is below the int64 maximum. Insert's `LastInsertId` error return is not modelled.
- `Usecase.Usecase.List`: the branch that returns the store's error cannot arise, because the model table never fails to read. The method therefore always returns (nil, nil).
- `Usecase.Usecase.Upload`: the store's error return from Insert is not modelled (see Insert). Upload's success path returns nil.
- `Logging.NewLogger`: the `log.Fatal` on a file that does not open is returned as a null logger, not as a process exit.
- Real time is not modelled. The ticker, `time.After` and context deadlines become event sequences, and one wait of the processor's select becomes the `Wake` and `Wins` timing model. These cover both loops.
- The text the logger writes, the global state of Go's `log` package, and the log file's handle are not modelled. The same goes for the lines `Info`, `Upload` and `Transcription` print.
- `Client.GladiaClient.AwaitTranscriptionResult` and `Audio.PollingResult` take no `timeInterval` argument. The ticker becomes `Tick` events, so the panic of `time.NewTicker` for an interval of zero or less is not modelled (client.go:190, processor.go:113). The callers pass 5 s.
- `Remote.ResolveOnNil`: net/url's parser is the parameter `resolve`, which gives the parse error or the resolved text. Only its scheme scan is modelled. A `resolve` that accepts a reference net/url rejects (such as one starting with ':') is not excluded.
- `time.Duration` is modelled as an unbounded integer, so its int64 range is not modelled.
- Typed-nil interface values are left out. Go's `== nil` tests on `ILogger`, `IGladiaClient` and `IDatabase` become null tests on class references.
- The panics of calling through a nil field are left out. When a Usecase method would dereference a nil logger, client or database, the model carries that path's non-null field as a precondition.
- `AudoUploader.New` and `AudoUploader.Upload` (internal/audio/processor.go:30-74) are not modelled. They are file I/O and printing around an upload call, and the use-case `Upload` covers the same flow.
- The `prerecorderv2` response types, config loading, `internal/repo/files.go`, `pkg/output` and the CLI wiring are left out. The transcription result is an opaque byte sequence.

## Findings

| source | as written | input that shows it | evidently intended | confidence | as-written member | corrected member |
|---|---|---|---|---|---|---|
| internal/audio/processor.go:132-133 | `time.After(timeout)` is evaluated on every entry to the select, so each wait gets a new timer | interval 1 s, timeout 2 s, every status "queued": after three waits (3 s) the loop is still polling and no "not obtained within" error is raised | one deadline for the whole polling run, as the error text says | medium; not executed | Audio.TimeoutRearmedEachWait | Audio.DeadlineBoundsWaiting |

`Audio.RearmedTimeoutNeverWins` generalises the as-written half: with ticks
more frequent than the timeout, the timeout error is never raised.
`Audio.DeadlineTimeline` is the corrected timing rule: one timer is armed
before the loop. `Audio.DeadlineBoundsWaiting` proves that, under this rule,
the loop never waits longer than the timeout. `Audio.PollingResult` itself
keeps the code's behaviour.
