# jog message normalisation, modelled in Dafny

jog is a Go logging adapter. It plugs into Go's `log` package as an
`io.Writer`, turns every write (or every direct `Log` call) into a `Message`
envelope with payload, level, caller file and line, and a UTC timestamp, and
hands that envelope to a pluggable `Logger`. The `loggers` package supplies
`basic`, a Logger that POSTs the JSON encoding to an HTTP endpoint.

This project models the normalisation pipeline of `jog.go` and the two pure
decisions of `loggers/basic.go` as pure Dafny functions:

- `values.dfy` (module `Values`): Go bytes, `error`, the `(int, error)` reply,
  the values `encoding/json` decodes into an `interface{}` (`Json`), Go
  `interface{}` values (`Value`: a plain JSON-shaped value, where
  `Plain(Null)` is nil, or a user-defined `Custom` value), and Go's
  `string(p)` / `[]byte(s)` conversions.
- `jog.dfy` (module `Jog`): `Level` (Go's `type Level string`, so an
  unvalidated level passes through `Log`), the level resolver `levelFrom`,
  `newMessage` with its payload rules, the `Write` adapter (newline strip,
  JSON-like shape test, decode or text fallback), the dispatch to the Logger
  (Go's lower-case `write`, here `Dispatch`), `Log` and the five level
  wrappers.
- `basic.dfy` (module `Loggers`): the endpoint join of `New`, the result
  classification of `basic.Log`, and `basic` used as the Logger of a Jog.
- `examples.dfy` (module `JogExamples`): the table-driven cases of
  `jog_test.go` as lemmas.

Collaborators the Go code calls but this model does not contain are
parameters: `runtime.Caller`'s frame (an `Option<Frame>`), the clock (an
integer instant), `json.Marshal`, `fmt.Sprint` and `json.Unmarshal` (fields of
`Jog.Env`), the Logger (a function `Message -> Reply`), the message encoder
and the HTTP POST of `basic` (functions passed to `Loggers.Log`).

The shape test of `Write` is `l > 1 && p[0] == '{' && p[l] == '}'` with
`l = len - 1` after trimming, so it needs at least three bytes and `{}` is not
JSON-like (`Jog.JsonLike`; `JogExamples.WriteCountAndShortBraces` shows `{}`
stored as text even by a decoder that would accept it).

The write table of `jog_test.go:43` expects `{blah` for the input `{blah"`;
the test never compares that case, because it only inspects map payloads
(`jog_test.go:122-131`). The code stores `{blah"` unchanged, and so does the
model (`JogExamples.WriteMalformedText`).

The "level" key is taken out of the payload on the `Write` path only
(jog.go:102-103). `Log` and the level wrappers pass an object payload through
`newMessage`, which never looks inside it (jog.go:170-181): an object with a
"level" key keeps it, next to the Message's own level
(`Jog.LogKeepsLevelKey`). `Jog.WriteNeverDuplicatesLevel` is therefore a
property of `Write` alone.

## Model

| member | source | states |
|---|---|---|
| Values.BytesToString | jog.go:105 | `string(p)` keeps every byte: same length, and character i has the code of byte i |
| Values.StringToBytes | jog_test.go:116 | `[]byte(s)` for single-byte strings: same length, byte i has the code of character i |
| Values.BytesStringRoundTrip | jog.go:105 | converting `string(p)` back to bytes gives exactly `p` |
| Values.StringBytesRoundTrip | jog_test.go:116 | converting `[]byte(s)` back to a string gives exactly `s` |
| Jog.LevelNamed | jog.go:142-153 | a string value naming one of the five levels selects that level; every other value (other strings, case variants such as "DEBUG", numbers, lists, nil) selects INFO; the result is always one of the five |
| Jog.LevelFrom | jog.go:124-154 | a non-object, or an object without "level", gives INFO and the value unchanged; with "level" present the level is that key's table entry and the result is an object whose keys are the input's minus "level", each with its original value |
| Jog.LevelFromIdempotent | jog.go:133-139 | after resolution no "level" key remains, so resolving the stripped value gives INFO and changes nothing |
| Jog.LevelFromRestore | jog.go:138-139 | exactly the "level" key is removed: putting its value back yields the original object |
| Jog.Stamp | jog.go:157-168 | the envelope holds the given payload, level and time; the location is the frame's, or "???" and 0 when no frame is available |
| Jog.Normalize | jog.go:170-181 | the payload is kept exactly when it is nil, a string, or marshals without error to at least 3 bytes; otherwise it becomes the string `fmt.Sprint` gives for it; the result always satisfies the kept condition |
| Jog.NormalizeIdempotent | jog.go:174-179 | normalising an already normalised payload changes nothing |
| Jog.NewMessage | jog.go:156-182 | the given level is stored unvalidated, the location defaults to "???"/0 without a frame, and the payload obeys the normalisation rules |
| Jog.TrimNewline | jog.go:93-98 | the result is a prefix of the input at most one byte shorter, and it is shorter exactly when the input ends in a newline |
| Jog.TrimNewlineOnce | jog.go:95-97 | one trailing newline is removed and a second one is kept |
| Jog.JsonLike | jog.go:94-101 | the trimmed bytes are JSON-like exactly when there are at least 3 of them, the first is `{` and the last `}`; no input, empty or a lone newline included, is indexed out of bounds |
| Jog.WriteMessage | jog.go:90-106 | the level is always one of the five; JSON-like bytes that decode give the decoded value stripped of "level" at the level `levelFrom` resolves; any other bytes give the trimmed bytes, byte for byte, as a string at INFO; location and time come from the frame and clock |
| Jog.WriteEmpty | jog.go:93-106 | an empty write and a write of only "\n" are logged as the empty string at INFO |
| Jog.WriteDecodedObject | jog.go:102-103 | a decoded object is passed on minus its "level" key, at the level that key named, or INFO without it |
| Jog.WriteNeverDuplicatesLevel | jog.go:101-106 | whatever the bytes and decoder, an object payload that `Write` hands to the Logger has no "level" key (`Log` gives no such promise) |
| Jog.Write | jog.go:90-110 | the writer returns the Logger's error for the built Message, and the Logger's count on success or 0 on error |
| Jog.WriteWriterContractIff | jog.go:109 | as written, `Write` keeps the `io.Writer` count contract exactly when the Logger fails or reports exactly `len(p)` |
| Jog.WriterWrite | jog.go:88-110 | the corrected writer hands on the same Message and returns the same error, its count is always in 0..len(p), and on success it is `len(p)` |
| Jog.Dispatch | jog.go:113-121 | a Logger error is returned with count 0; on success the Logger's reply is returned unchanged, negative counts included |
| Jog.DispatchIdempotent | jog.go:113-121 | dispatching through a Logger whose replies are already dispatched changes nothing |
| Jog.LogKeepsLevelKey | jog.go:170-181 | an object payload given to `Log` keeps its "level" key, and the Message keeps the caller's level |
| Jog.Log | jog.go:54-56 | logging a value returns the Logger's error on the normalised Message and its count on success, 0 on error |
| Jog.LogError | jog.go:59-86 | a level wrapper's result is the Logger's error on the Message at that level |
| Jog.Critical | jog.go:59-62 | returns the Logger's error on the CRITICAL Message for the value |
| Jog.Error | jog.go:65-68 | returns the Logger's error on the ERROR Message for the value |
| Jog.Warning | jog.go:71-74 | returns the Logger's error on the WARNING Message for the value |
| Jog.Info | jog.go:77-80 | returns the Logger's error on the INFO Message for the value |
| Jog.Debug | jog.go:83-86 | returns the Logger's error on the DEBUG Message for the value |
| Loggers.New | loggers/basic.go:85-90 | the stored name is the given name; a url ending in "/" gives endpoint url + name, any other url (the empty one included) gives url + "/" + name; in both the endpoint starts with the url and ends with the name |
| Loggers.NewSlashBeforeName | loggers/basic.go:86-89 | in both branches the character just before the name in the endpoint is "/" |
| Loggers.NewTrailingSlashIrrelevant | loggers/basic.go:86-89 | a url with or without one trailing slash gives the same endpoint |
| Loggers.Log | loggers/basic.go:54-70 | a marshal error or a transport error is returned with 0; a status outside 200-299 gives 0 and an error carrying status, endpoint and body; there is no error exactly when the POST answered 200-299, and then the count is the encoding's length |
| Loggers.WriteThroughBasic | loggers/basic.go:54-70 | a line written through a Jog backed by `basic` succeeds exactly when the encoded Message was posted with a 2xx answer, returning its length, and otherwise returns 0 with an error |
| JogExamples.LevelFromNames | jog_test.go:10-14 | the exact lowercase names "debug", "info", "warning", "error", "critical" give their level |
| JogExamples.LevelFromInvalid | jog_test.go:16-25 | "bob", "DEBUG", "Jack", blanks, "-1", "1", the number 1, a list holding "critical" and nil all give INFO |
| JogExamples.NewMessageTable | jog_test.go:28-38 | strings and nil are stored as given; values marshalling to "{}" are replaced by their printed form, `String()` included |
| JogExamples.WriteText | jog.go:101-106 | text without a trailing newline that is not JSON-like is stored verbatim at INFO for every decoder |
| JogExamples.WritePlainText | jog_test.go:42 | "blah blah" is stored as "blah blah" at INFO |
| JogExamples.WriteMalformedText | jog_test.go:43 | `{blah"` is stored unchanged at INFO |
| JogExamples.WriteUnterminatedObject | jog_test.go:44 | `{"blah": "blah"` is stored unchanged at INFO |
| JogExamples.WriteJsonTable | jog_test.go:46-51 | bytes decoding to the table's objects give the objects minus "level" (an empty map for `{"level":"critical"}`, nested objects intact) at the named level |
| JogExamples.WriteCountAndShortBraces | jog_test.go:88-91 | the test logger's count of -1 is returned unchanged, which breaks the `io.Writer` contract, and "{}" is stored as text |
| JogExamples.WriterWriteCount | jog.go:88-110 | the corrected writer reports the two bytes of the same write |

## Findings

| source | as written | input that shows it | evidently intended | confidence | as-written member | corrected member |
|---|---|---|---|---|---|---|
| jog.go:109, jog.go:120 | `Write` is documented as an `io.Writer` implementation (jog.go:48, 88-89) but returns the Logger's count, which can be negative or larger than `len(p)`, with a nil error | a 2-byte write `{}` to the test logger of jog_test.go:88-91 returns `(-1, nil)`; `basic` returns the encoded envelope's length, more than `len(p)` | return `len(p)` on success and `(0, err)` on a Logger error, so that `0 <= n <= len(p)` and `n < len(p)` only with an error | not executed | Jog.WriteWriterContractIff, JogExamples.WriteCountAndShortBraces | Jog.WriterWrite |

`Jog.Write` and the lemmas built on it (`Loggers.WriteThroughBasic`) keep the
as-written count, since that is what the code returns; `Jog.WriterWrite` is
the corrected writer.

## Left out

- `runtime.Caller` and the stack depths 3 and 4 (jog.go:55, 91, 166): runtime introspection; the caller's frame is an optional input instead.
- `time.Now().UTC()` (jog.go:160): the clock is an integer input passed through to the Message.
- The stderr diagnostic of `write` (jog.go:116-117): an I/O side effect; only the `(0, err)` result is modelled.
- `encoding/json` Marshal and Unmarshal, `fmt.Sprint` and `Stringer`: library calls, given as abstract functions; nothing is assumed about what they return, so the canonical JSON encoding of a Message and its round trip are not modelled.
- Decoded JSON numbers are kept as mathematical reals; float64 rounding is not modelled.
- Go strings are byte sequences, but only on the `Write` path does the model keep them as bytes (one character per byte, `Values.BytesToString`). Everywhere else (a string given to `Log`, decoded `Str` values and keys, `fmt.Sprint` results, `New`'s url and name) a string is a sequence of Unicode code points, so a non-ASCII Go string has two different representations in the model: "é" is two characters on the `Write` path and one elsewhere. The two are never compared with each other.
- Values.StringToBytes: covers only strings whose characters are single bytes (`IsByteString`), whereas Go's `[]byte(s)` accepts every string; it is used only to build test inputs.
- The `*http.Client`, its TLS transport, `timeoutFn` and `cfg` (loggers/basic.go:24-51, 63): network and configuration I/O; the POST is an abstract function of endpoint and body.
- The text of the non-2xx error (loggers/basic.go:67): the error carries the status, endpoint and body it formats, not the formatted string.
- `SetBasic`, `NewFromConfig`, `NewWriter`, `NewLogger` and jog's `New` (jog.go:185-197; loggers/basic.go:73-82): global redirection of the `log` package and constructors that only wrap a Logger.
- `basic.Log` takes `interface{}` while `Logger.Log` takes `*Message` (loggers/basic.go:54, jog.go:43): a Go type-level mismatch; `Loggers.AsLogger` treats `basic` as a Logger over the encoded Message.
- In-place mutation of the decoded map by `levelFrom`: the model returns the stripped value instead, which is what the caller observes afterwards.
