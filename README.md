# alertmanager2es webhook handler, modelled in Dafny

alertmanager2es receives alert-group notifications from Prometheus Alertmanager
over a webhook. It writes each one as a single document to Elasticsearch, into a
monthly index. This project models the request handler (`handler` in `main.go`).
The handler counts every call and rejects bodies that are missing, undecodable or
not version `"4"`. It stamps `@timestamp` with the receipt time and derives the
target `esURL/esIndexName-<date>/esType`. It POSTs the document with a
User-Agent, a JSON content type and, when both `ES_USER` and `ES_PASS` are set,
HTTP Basic credentials (RFC 7617). The caller gets 200 on a 2xx from the store,
400 for its own faults and 500 for every other failure. Each failure moves
exactly one of the counters `invalid` and `errored`.

Files:

- `wrappers.dfy` (`Wrappers`): `Option`, `Result` and `Outcome`. Every failing
  step of the handler carries an error text.
- `text.dfy` (`Text`): facts about one string occurring inside another, used by
  the error-message contracts.
- `goformat.dfy` (`GoFormat`): the `%q` and `%d` verbs the error messages use,
  with inverses. `ReadQuoted` reads a quoted literal up to its closing quote
  and returns what follows; `Unquote` and `ParseDecimal` read whole texts back.
  With them, each of the two diagnostic messages is shown to determine the
  values it names.
- `notification.dfy` (`Notifications`): the notification and alert records, the
  supported version, and stamping.
- `target.dfy` (`Target`): the configuration and its defaults, the User-Agent
  text, the index path and URL derivation, and `strings.Split` on `/`. The
  handler test uses `strings.Split` to check the path.
- `handler.dfy` (`Handler`):
  - the handler's inputs, exits, reply and outbound request;
  - `Process`, the handler as a function of its inputs;
  - the three counters, as the `Counters` value and the `Metrics` class;
  - `Metrics.Handle`, the imperative handler, which updates the counter fields
    step by step with early returns and is proved equal to `Process`.

Every I/O or library step of the handler is an input field of `Handler.Inputs`:

- whether the body is present;
- how reading it went;
- what JSON decoding gave;
- the receipt time formatted as RFC 3339 and with the index date layout;
- whether encoding and request construction failed;
- the two environment values;
- the HTTP client's result (status code, plus how reading the response body went).

On success the document handed to the client is the stamped `Notification`
value itself. Its JSON bytes are not modelled.

Three behaviours of the code that are easy to miss:

- Only the fields declared in the `notification` struct (main.go:193-213)
  survive decoding. Other payload fields are dropped, and `startsAt`/`endsAt`
  are re-encoded from `time.Time`. The model's `Notification` holds exactly the
  declared fields.
- A failure to read the request body is counted as errored and answered with
  500 (main.go:108-114). Only a missing body, a decoding failure and a wrong
  version count as invalid.
- The response body is read before the status code is checked (main.go:175-190).
  So a failed read on a non-2xx answer ends as `ResponseReadFailed`, with the
  read error as message.

## Model

| member | source | states |
|---|---|---|
| `Handler.Metrics.Handle` | main.go:97-191 | every call adds 1 to `received`; a 400 adds 1 to `invalid`, leaves `errored` and sends nothing; a 500 adds 1 to `errored` and leaves `invalid`; a 200 moves neither; reply, request sent and counters are exactly those of `Process` and `Count` |
| `Handler.Metrics.constructor` | main.go:35-49 | the three counters start at zero |
| `Handler.Process` | main.go:97-191 | the reply's status is the one its exit class maps to; an error text is present on every exit except success; no request is sent on any invalid-input exit |
| `Handler.StatusOf` | main.go:100-190 | 200 exactly for a delivered write, 400 exactly for the exits counted as invalid (empty body, undecodable, wrong version), 500 exactly for the others |
| `Handler.StatusClasses` | main.go:100-190 | the caller gets 400 iff there was no body, or a body that read fine but did not decode or was not version "4"; 200 iff validation, encoding and request construction succeeded and the store answered 2xx with a readable body; 500 in all other cases |
| `Handler.SentExactlyWhenDispatched` | main.go:100-167 | a request is handed to the HTTP client iff validation, encoding and request construction all succeeded; never for invalid input |
| `Handler.OutboundRequestShape` | main.go:134-165 | the request sent is a POST to `esURL + "/" + esIndexName + "-" + date + "/" + esType`; it has exactly the User-Agent (the version string) and `application/json` Content-Type headers; it carries Basic credentials iff both `ES_USER` and `ES_PASS` are non-empty, and then those two values; its document has `@timestamp` equal to the receipt time and every other field equal to the decoded notification's |
| `Handler.IsSuccessStatus` | main.go:184 | Go's truncating `StatusCode/100 == 2` holds exactly for 200..299 |
| `Handler.BasicAuth` | main.go:160-165 | credentials are present iff both user and password are non-empty, and then they are those two values |
| `Handler.StoreNotFoundIsServerError` | main_test.go:75-88 | a 404 from the store ends as a store rejection, answered 500, whose message contains "404" |
| `Handler.RequestHeaders` | main.go:157-158 | the outbound headers are exactly `User-Agent`, set to the version string, and `Content-Type`, set to `application/json` |
| `Handler.Deliver` | main.go:167-190 | the request counts as handed to the HTTP client on every outcome of the call, a transport error included |
| `Handler.VersionMismatchMessage` | main.go:126-128 | the version-mismatch message contains the quoted received version and the quoted supported version; `VersionMessageDeterminesVersion` shows it determines the received version |
| `Handler.VersionMessageDeterminesVersion` | main.go:128 | two equal version-mismatch messages were produced from the same received version |
| `Handler.StoreErrorMessage` | main.go:184-186 | the non-2xx message contains the quoted URL, the decimal status code and the store's response body; `StoreMessageDeterminesCause` shows it determines all three |
| `Handler.StoreMessageDeterminesCause` | main.go:186 | two equal non-2xx messages were produced from the same URL, the same status code and the same response body, whatever quotes or digits the body holds |
| `Handler.DiagnosticsNameTheirCause` | main.go:126-190 | when the handler stops on a version mismatch or a non-2xx answer, the error text it returns names the versions, or the target URL, status code and body |
| `Handler.Count` | main.go:98-186 | one call adds 1 to `received`; an invalid exit adds 1 to `invalid` only; an errored exit adds 1 to `errored` only; success moves neither failure counter |
| `Handler.ReplayCounts` | main.go:98-186 | over any sequence of calls, `received` grows by the number of calls and `invalid` by the number of caller faults; `errored` grows by the number of remaining calls that were not delivered |
| `Handler.ReceivedCountsCalls` | main.go:98 | from start-up, `received` equals the number of calls, and `invalid + errored` never exceeds it |
| `Notifications.Stamp` | main.go:134-136 | the stamped document's `@timestamp` is the receipt time and every other field is the original's |
| `Notifications.StampIgnoresClientTimestamp` | main.go:211-212 | two notifications that differ at most in a client-supplied `@timestamp` are stamped to the same document |
| `Notifications.StampOverwrites` | main.go:136 | stamping twice equals stamping once with the later time |
| `Target.IndexPath` | main.go:138 | when the dated index name and the type contain no `/`, the index path splits on `/` into exactly those two pieces |
| `Target.TargetURL` | main.go:138-139 | the target starts with the configured datastore URL and is longer than it |
| `Target.Split` | main_test.go:61 | Go's `strings.Split` with a one-character separator: there is always at least one piece, and empty pieces are kept (the empty string gives one empty piece) |
| `Target.SplitPieces` | main_test.go:61 | `n` separators give `n + 1` pieces, and no piece contains the separator |
| `Target.JoinSplit` | main_test.go:61 | joining the pieces with the separator gives back the original text, so nothing is dropped, empty pieces included |
| `Target.SplitWithoutSeparator` | main_test.go:61 | a text without the separator splits into itself alone |
| `Target.SplitAfterPiece` | main_test.go:61 | a separator-free piece followed by the separator splits off as the first piece, in front of the rest's pieces |
| `Target.TargetPathSegments` | main.go:138-139 | when the index name, date and type contain no `/`, the path after the datastore URL splits on `/` into exactly "", `esIndexName-date` and `esType` |
| `Target.DefaultTargetPath` | main_test.go:60-64 | with the default settings the target is `esURL/alertmanager-<date>/alert_group`, and its path splits into "", `alertmanager-<date>` and `alert_group` |
| `Target.TargetDateInjective` | main.go:138 | different formatted dates give different targets |
| `Target.DefaultConfig` | main.go:27-32 | the defaults are index name `alertmanager`, date layout `2006.01`, type `alert_group` and revision `unknown` |
| `Target.VersionString` | main.go:33 | the User-Agent is `alertmanager2es `, then the revision, then ` (`, the runtime version and `)`, with the length of exactly those pieces |
| `GoFormat.Quote` | main.go:128 | a `%q` literal starts and ends with a double quote; `QuoteRoundTrip` and `QuoteInjective` give its inverse |
| `GoFormat.QuoteRoundTrip` | main.go:128 | reading a `%q`-quoted string back gives the original string |
| `GoFormat.QuoteInjective` | main.go:128 | different strings quote differently |
| `GoFormat.DecimalRoundTrip` | main.go:186 | reading the `%d` text of an integer back gives that integer |
| `GoFormat.Decimal` | main.go:186 | the `%d` text is non-empty, starts with `-` exactly for a negative integer, and is digits after that; `DecimalRoundTrip` gives its inverse |
| `GoFormat.ReadEscaped` | main.go:186 | reading the escaped text of a string followed by a quote stops at that quote, giving the string and exactly the text after the quote |
| `GoFormat.DecimalBeforeColon` | main.go:186 | a decimal text followed by a colon determines both the integer and the text after the colon |
| `GoFormat.NatString` | main.go:186 | the decimal text of a natural number is non-empty, all digits, and has no leading zero |

## Left out

- `main` and what it sets up (main.go:58-95): flag parsing, the `-version` exit, the exit code 2 for a missing URL, timeouts, the `/` and `/metrics` routes, and logging. The configuration they produce is the `Config` parameter.
- Prometheus registration and exposition (main.go:35-56, main.go:90). The counters are plain `nat` fields. Concurrent increments from several goroutines are not modelled: `Handle` is one call at a time.
- JSON decoding and encoding, and the parsing of `startsAt`/`endsAt` into `time.Time` (main.go:118, main.go:141, main.go:196-199). Their results enter as inputs; alert timestamps are carried as text.
- The clock and Go's layout formatting (`2006.01`, RFC 3339; main.go:134-138). Both formatted strings are inputs.
- The HTTP client, the network and the environment (main.go:149, main.go:160-161, main.go:167, main.go:175). Only their success or failure and the values they return enter the model. The `Authorization` header that `SetBasicAuth` writes (Base64 of `user:password`) is represented by the request's `auth` field.
- Logging. The handler calls `log.Print` with the error on every failure exit (main.go:104, 112, 122, 130, 145, 153, 171, 180, 188). No log output is modelled; `Reply` holds only what the caller gets.
- `http.Error` also sets a text content type and appends a newline to the message. The model's `Reply` holds the status and the message only.
- `GoFormat.Quote`: `%q` is modelled for ASCII (escaped quote and backslash, the seven C escapes, `\xHH` for other controls). Non-ASCII characters pass through unescaped, where Go escapes the non-printable ones as `\u`/`\U` (U+00A0, for one, becomes `\u00a0` in Go but stays as it is here). Go strings that are not valid UTF-8 cannot be written as Dafny strings.
- `GoFormat.QuoteRoundTrip`: the round trip, and `ReadEscaped` with it, is proved for the `%q` modelled here, not for Go's `\u`/`\U` escapes.
- The byte-prefix payload comparison in the happy-path test (main_test.go:66-72). It depends on JSON byte layout and a fixed-length truncation, and its fixture does not have the shape the handler encodes.
- The runtime-version part of the User-Agent pattern test (main_test.go:101-104). It depends on the text the Go runtime reports about itself, which is the `runtimeVersion` input here; `Target.VersionString` states where that text sits but not its shape.
