# Text-to-speech playback coordinator of go-chromecast, in Dafny

This project models the part of go-chromecast that turns a text into speech on
a Chromecast device. It covers the HTTP `tts` handler and the `tts <message>`
command. The model has three parts:

- **Request defaulting.** Each empty payload field among device uuid,
  address, port, service account and language code is taken from the
  handler's process default. The first field that neither side supplies
  rejects the request before anything else happens.
- **Device-session registry** (`getOrConnectApp`). This is a map from device
  uuid to session. A hit returns the stored session. On a miss, one discovery
  scan runs, and in it the last record matching the uuid overrides the
  fallback address and port. The port is then parsed. The session is
  registered only if it starts.
- **Synthesis-file cache and temp files** (`ttsFile`,
  `fileExistsAndNonZeroSize`, `play`). In cache mode the audio file is named
  by the digest of the text alone. It is reused when it exists with non-zero
  size, and otherwise created with exclusive create. Without cache, each
  playback gets a fresh temp file, which is removed after `Load`.

The file cmd/tts.go holds a verbatim copy of `ttsFile` (cmd/tts.go:97-114) and
`fileExistsAndNonZeroSize` (cmd/tts.go:116-122). Its `Run` repeats the playback
steps of `play`. The model defines each of these once (`Synthesis.TtsFile`,
`Environment.ExistsNonEmpty`, `Synthesis.Play`) and uses them from both
entry points.

How it is built:

- The collaborators are values passed in:
  - the discovery scan (`Discovery.Scan`: an error, or a finite sequence of
    records);
  - `tts.Create`, `File.Write`, `File.Close`, `Application.Load` and
    TempFile's random name suffixes (a `Synthesis.Outcomes` value);
  - `Application.Start` (a boolean);
  - `castApplication` (an optional session).
- The filesystem is a map from path to regular file (its bytes) or directory.
  The service-account file is read from it.
- Every call the core makes into a collaborator, except the file opens of
  `ttsFile` and `File.Close`, is appended to a trace (`Environment.Effect`).
  The opens show in the filesystem (the created file), and a failed close is
  an answer passed in, so the trace of a successful playback has no entry
  between the write and the Load. The number of provider calls is the count of
  `Synthesize` entries in that trace.
- The SHA-1 hex naming is an arbitrary function from text to string
  (`Config.digest`).
- Each flow is a specification function (`TtsFileResult`, `PlayResult`,
  `ConnectResult`, `TtsResult`, `RunResult`). Each flow also has an
  imperative method that takes the same steps as the Go code, and that method
  is proved equal to its function. The properties are lemmas about the
  functions.

In the following points the code departs from what one would expect of such a
cache (an audio file counts only when it exists with non-zero size, and is
regenerated otherwise; temp files are released on every exit path). The model
follows the code, and the lemmas named make each point visible:

- A zero-size file at the digest path is not regenerated. Exclusive create
  fails on it, so every later cached request for that text fails before
  synthesis (`EmptyLeftoverBlocksCache`). A cached request whose credential
  read or provider call fails leaves exactly such a file behind
  (`FailedMissBlocksLaterRequests`).
- A write that fails part-way in cache mode leaves a truncated file. Later
  requests serve that file as a cache hit (`PartialWriteServedFromCache`).
- Without cache, the temp file is removed only on paths that got past
  synthesis, write and close. An earlier failure leaves it behind
  (`UncachedFailureLeavesTempFile`).
- The HTTP handler does not check that `text` is non-empty. The address and
  port are mandatory at the defaulting stage, even when discovery would
  override them.
- The cache name ignores the language code. A second request for the same
  text in another language gets the first language's audio
  (`SecondRequestHitsCache` lets the two languages differ).

## Model

| member | source | states |
|---|---|---|
| `Requests.ApplyDefaults` | http/handlers_tts.go:28-63 | the handler's field-by-field checks compute the reference filling `Defaulted` (fields filled in the order uuid, addr, port, account, language) |
| `Requests.FillFillsOrNamesFirstMissing` | http/handlers_tts.go:28-63 | filling over any field list either completes, with every listed field taken from the payload or, when that is empty, from the default, and every other field untouched; or it names the first listed field that has neither; completion happens exactly when every listed field gets a non-empty value |
| `Requests.DefaultedFillsOrRejects` | http/handlers_tts.go:28-63 | a request is rejected exactly when some field has neither a value nor a default; the rejection names the first such field in the order uuid, addr, port, account, language; otherwise all five fields are non-empty, text and cache unchanged |
| `HttpHandler.RejectionHasNoSideEffects` | http/handlers_tts.go:28-65 | a rejected request leaves the registry, the filesystem and the call trace exactly as they were (no discovery, no start, no synthesis) |
| `HttpHandler.Handler.Tts` | http/handlers_tts.go:19-73 | the handler's registry, files and trace afterwards and its outcome equal `TtsResult`: defaulting, then getOrConnectApp, then play only if a session was found |
| `HttpHandler.Handler.GetOrConnectApp` | http/handlers_tts.go:75-128 | returns, registers and traces exactly what `ConnectResult` says; the filesystem is untouched |
| `HttpHandler.RegisteredDeviceIsLookup` | http/handlers_tts.go:76-78 | a registered uuid returns its stored session with no discovery, no start and no registry change |
| `HttpHandler.RegistryChangesOnlyOnStart` | http/handlers_tts.go:100-126 | a failed connect leaves the registry unchanged; a successful one maps the uuid to the returned session and leaves every other entry as it was; a new session is returned only after a successful Start at its address and port, and a failed Start is why a traced Start yields no session |
| `HttpHandler.SecondConnectIsLookup` | http/handlers_tts.go:76-78 | after a successful connect, connecting again with the same uuid returns the same session and changes nothing, whatever the scan and Start would answer |
| `HttpHandler.UnresolvableDeviceNotFound` | http/handlers_tts.go:100-103 | an unregistered uuid that no record matches, with an empty fallback address or port, is not found; the registry is unchanged and the scan is the only call |
| `HttpHandler.NonNumericPortNotFound` | http/handlers_tts.go:88-111 | when the scan failed or matched no record, a fallback port that does not parse as a decimal integer is not found and changes only the trace (the scan) |
| `HttpHandler.DiscoveredDeviceIsStarted` | http/handlers_tts.go:88-126 | the last matching record of the scan decides the Start: its address and, via Itoa then Atoi, its exact port; on success the new session is registered with those values |
| `HttpHandler.FirstRequestSynthesizesAndRegisters` | http/handlers_tts.go:65-67 | a first cached request for an unseen text to a discovered device registers the session, calls the provider once, stores the audio at the digest path and loads it on that session |
| `HttpHandler.RepeatedRequestReusesSessionAndCache` | http/handlers_tts.go:65-67 | repeating a cached request that reached the device reuses the session and the file: registry and files unchanged, no provider call, exactly one more Load, of the digest path, on the session registered for the uuid |
| `Discovery.ScanRecords` | http/handlers_tts.go:88-97 | the loop over the scanned records leaves the address and port given by `Endpoint` |
| `Discovery.NoMatchKeepsFallback` | http/handlers_tts.go:83-98 | when no record matches the uuid, the caller's address and port are kept |
| `Discovery.LastMatchWins` | http/handlers_tts.go:88-97 | otherwise the address and port text come from the last matching record |
| `Decimal.Atoi` | http/handlers_tts.go:107-111 | strconv.Atoi: a parsed port is within the 64-bit int range and comes from non-empty text |
| `Decimal.AtoiRejects` | http/handlers_tts.go:107-111 | text with a character that is neither a digit nor a leading sign does not parse |
| `Decimal.AtoiRejectsBareSign` | http/handlers_tts.go:107-111 | the empty text and a lone `+` or `-` do not parse |
| `Decimal.AtoiDecimal` | http/handlers_tts.go:107-111 | in-range decimal text, with or without leading zeros and with an optional `+` or `-`, parses to its signed value |
| `Decimal.AtoiOutOfRange` | http/handlers_tts.go:107-111 | decimal text beyond the 64-bit range does not parse, except that `-` followed by the magnitude 2^63 gives the minimum |
| `Decimal.Itoa` | http/handlers_tts.go:95 | strconv.Itoa gives non-empty text that starts with '-' exactly for negative numbers, so a discovered port is never an empty port string |
| `Decimal.AtoiItoa` | http/handlers_tts.go:95-107 | parsing what Itoa wrote gives back the same number for every 64-bit int |
| `Environment.ExistsNonEmpty` | http/handlers_tts.go:196-202 | fileExistsAndNonZeroSize holds only for a path that names a regular file with at least one byte |
| `Environment.Host.ReadFile` | http/handlers_tts.go:141 | ioutil.ReadFile returns the bytes of a regular file and fails for a missing path or a directory; the read is traced and the files are unchanged |
| `Environment.ExistsNonEmptyCases` | cmd/tts.go:116-122 | fileExistsAndNonZeroSize is false for a missing path and for a directory, and for a regular file true exactly when its size is positive |
| `Environment.FirstFree` | http/handlers_tts.go:192 | the temp name chosen is one of the candidates and names nothing yet; when none is chosen, every candidate was taken |
| `Environment.Host.CreateTemp` | http/handlers_tts.go:192 | TempFile creates an empty file at the first candidate name that is free, or fails when all are taken, and changes nothing else |
| `Environment.Host.CreateExclusive` | http/handlers_tts.go:189 | exclusive create succeeds exactly when the name does not exist, and then adds an empty file |
| `Synthesis.CachePath` | http/handlers_tts.go:182-185 | the cache file lies in the temp directory and ends in ".mp3"; its name is built from the text's digest alone |
| `Synthesis.CachePathNamesDigest` | http/handlers_tts.go:182-185 | two texts share a cache file exactly when their digests agree, whatever the language |
| `Synthesis.TtsFile` | http/handlers_tts.go:178-195 | opens the path and leaves the filesystem given by `TtsFileResult`: cache mode reuses an existing non-empty digest file, else creates it exclusively; without cache creates a fresh temp file |
| `Synthesis.Play` | http/handlers_tts.go:130-176 | the outcome, the files and the trace after playback equal `PlayResult` |
| `Synthesis.CacheHitSkipsProvider` | http/handlers_tts.go:134-171 | with a non-empty file at the digest path, cached playback only loads that file: no credential read, no provider call, no write, files unchanged; language and credential play no part |
| `Synthesis.CacheMissSynthesizesOnce` | http/handlers_tts.go:139-171 | a cached request for a text never stored, with a readable credential and successful provider, write and close, makes exactly one provider call, stores the audio at the digest path and loads it |
| `Synthesis.SecondRequestHitsCache` | http/handlers_tts.go:181-187 | after a cached playback that reached the device with non-empty audio, a second cached request for the same text, in any language, makes no provider call and no write and loads the same path |
| `Synthesis.EmptyLeftoverBlocksCache` | http/handlers_tts.go:186-190 | a zero-size file or a directory at the digest path makes ttsFile fail: cached playback stops before Load and changes nothing |
| `Synthesis.FailedMissBlocksLaterRequests` | http/handlers_tts.go:139-151 | a cached miss that fails at the credential read or in the provider leaves an empty file at the digest path, so the next cached request for that text fails at ttsFile |
| `Synthesis.PartialWriteServedFromCache` | http/handlers_tts.go:152-156 | a cached write that fails after some bytes leaves a truncated file that the next cached request adds only a Load of it, with no credential read and no provider call, and leaves the files as they were |
| `Synthesis.UncachedPlayRestoresFiles` | http/handlers_tts.go:164-171 | without cache, playback that reached Load (whether Load succeeded or failed) used a fresh temp file and removed it after Load, leaving the filesystem exactly as before |
| `Synthesis.UncachedFailureLeavesTempFile` | http/handlers_tts.go:139-169 | without cache, a failure in credential read, provider, write or close leaves the fresh temp file in place, because the removal is scheduled only after those steps |
| `Synthesis.PlayExtendsTrace` | http/handlers_tts.go:130-176 | playback only appends to the trace of calls |
| `Synthesis.PlayCalls` | http/handlers_tts.go:134-175 | the calls playback adds, for each way it can end: none when the file cannot be opened; credential read, provider call, write in that order on the synthesis path; Load, then removal without cache |
| `Synthesis.LoadOnlyPastSynthesis` | http/handlers_tts.go:171 | Load is called exactly when playback got past synthesis or skipped it, on the given session, with "audio/mp3" and three false flags |
| `Synthesis.ProviderCalledOnlyOnMiss` | cmd/tts.go:61-70 | a playback calls the provider at most once, and never when the digest file already exists with non-zero size |
| `TtsCommand.Run` | cmd/tts.go:31-94 | the outcome, files and trace after the command equal `RunResult`: argument check, device connection, service-account check, then the playback steps |
| `TtsCommand.ArgumentsCheckedFirst` | cmd/tts.go:33-36 | the command is refused exactly when there is not exactly one non-empty argument, before any device connection and with nothing changed; otherwise the device connection is its first call |
| `TtsCommand.DefaultFlagsNeedServiceAccount` | cmd/tts.go:31-48 | the default flags carry no service account, so a run with them stops right after the device connection (or at a failed connection) |
| `TtsCommand.ServiceAccountCheckedAfterConnect` | cmd/tts.go:38-48 | with an empty service account a connected command stops for it after the device connection, and a failed connection stops it first; nothing else happens |
| `TtsCommand.DefaultFlagsSpeakEnglishUncached` | cmd/tts.go:124-129 | with the default flags plus a service account, the provider is asked only for the message in "en-US", and playback that reached Load leaves the filesystem unchanged (no cache, temp file removed) |

## Left out

- JSON decoding of the request, HTTP status codes and response writing. The model returns an outcome value (`TtsOutcome`) instead.
- Logging and all printed messages.
- The handler's mutex and concurrent requests. The model is single-threaded, so the races on the registry map and on the cache file are not modelled.
- The zeroconf implementation and its 3-second timeout. A scan is an error or a finite sequence of records.
- `application.NewApplication`, `Start`, `Load` and `castApplication`. These are device-control code, modelled as success or failure answers.
- The session options: the verbose flag is recorded in the session (`Session.debug`), and disabling the session's own cache has no modelled effect.
- `tts.Create` (a network call). It is an answer passed in, and each call is traced.
- SHA-1 and `%x` formatting. Together they are an arbitrary deterministic function of the text. Collision resistance is not modelled.
- `os.TempDir` and the random suffixes of TempFile. These are given values, and the tries are the given finite sequence of suffixes.
- `os.Stat` and `os.Open` failures other than a missing path (permissions, I/O errors). The model treats them as not happening.
- The read-only handle left open on a cache hit.
- Directory sizes. The size of a directory is never consulted, because the directory test comes first.
- Close errors are answers passed in; the bytes written before a failed close stay in the file.
- `Environment.Host.Write`: models a write to a freshly created empty file (the only kind the core writes). The content becomes the bytes written, and a failed write keeps a prefix of the data.
- `h.app`, the locked registry lookup, is defined outside http/handlers_tts.go and cmd/tts.go. It is taken to be a plain map lookup.
- Flag parsing and the `httpserver` command wiring (cmd/httpserver.go) are left out. The flags of `tts` are a `TtsCommand.Flags` value, and `TtsCommand.DefaultFlags` holds their defaults.
