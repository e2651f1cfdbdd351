# vmix-rs: a Dafny model of the vMix TCP and HTTP clients

vmix-rs talks to vMix, a live video production program. It has two clients.

- **TCP client.** It connects to vMix's TCP API on port 8099. It sends text commands (`FUNCTION`, `XML`, `TALLY`, `QUIT`). It decodes the lines vMix sends back into commands: the `TALLY` light string, `FUNCTION` acknowledgements, `XML` state documents, and `ACTS` activator notifications.
- **HTTP client.** It calls vMix's Web API at `http://host:port/api`, with query parameters. It turns the XML state into a tally map.

The repository carries two generations of each piece:

- the guarded activator decoder of vmix-tcp next to the older `unwrap`-based decoders of src/acts.rs and src/lib.rs;
- the hand-written HTTP/1.1 client of vmix-http next to the older reqwest client of src/http.rs.

The model follows each of them.

Modules:

- `Common`: the shared types.
  - The status of a response line, the error kinds, input numbers, and the XML state.
  - `Outcome`. A Rust `Result` is `Ok`/`Err`. A panic (an `unwrap` on `None`, an index out of bounds, an arithmetic overflow) is a third outcome, `Panic(site)`, so the model says exactly which inputs panic.
  - `Foreign`: the functions that are not part of the model (float parsing, UTF-8 decoding, XML deserialisation). They are parameters.
- `RustText`: the parts of Rust's standard library the decoders rely on.
  - `split_whitespace`, `lines` and `str::parse::<u16>/<u64>`.
  - Decimal formatting.
  - `split` and `join` on a separator.
- `Activators`: the 79 activator variants, grouped by the shape of their arguments, and their keyword names.
- `TcpActs`: the guarded decoder of vmix-tcp/src/acts.rs.
- `LegacyActs`: the unguarded decoder of src/acts.rs.
- `Commands`: `Status::from`, `TallyData::from` and `Command::try_from` of src/commands.rs.
- `LibTcp`: the second copy of these in src/lib.rs. It has a different activator set, with `f64` levels and an `Input` variant.
- `Connection`: `VmixApi` of src/vmix.rs.
  - The reader and writer threads, each as a loop over the events it sees, with the shared shutdown and error flags.
  - The command channel.
  - `Drop`, `disconnect` and `is_connected`.
  - The `FUNCTION` line.
- `Net`: socket addresses and their display.
- `HttpClient`: vmix-http/src/client.rs.
  - The base URL and the query string.
  - The status check and the `Content-Length` lookup.
  - The body-reading loops over a byte stream object.
  - `execute_function`, `is_connected` and `get_xml_state`.
- `HttpTally`: the tally map both HTTP clients compute from the XML state.
- `LegacyHttp`: src/http.rs.

## Model

| member | source | states |
|---|---|---|
| RustText.SplitWhitespace | src/commands.rs:127-135 | the token-collecting loop produces exactly the whitespace-separated words of the line |
| RustText.Words | src/commands.rs:127-135 | every word is a nonempty token free of whitespace |
| RustText.WordsOfJoinSpaces | src/commands.rs:127-135 | splitting words that were joined with single spaces gives back the same words |
| RustText.JoinLines | src/commands.rs:125 | joining the lines of the text never lengthens it and leaves no line feed |
| RustText.JoinLinesStripsTerminator | src/commands.rs:125 | a line read with its "\r\n" or "\n" terminator comes back without it; a lone "\n" after a '\r' takes the '\r' too |
| RustText.FormatDecimal | vmix-http/src/client.rs:209-211 | the port text is a nonempty run of digits whose value is the number |
| RustText.ParseUnsigned | src/commands.rs:27 | a success is an optional '+' and decimal digits whose value fits the width, and is that value; every digit string that fits parses, with or without a leading '+'; one that does not fit fails; an empty, sign-only or negative text fails |
| RustText.ParseU16Or0 | vmix-http/src/client.rs:171-176 | a digit string that fits in u16 reads as its value; an empty, negative or too large number reads as 0 |
| RustText.ParseFormatted | src/commands.rs:23-31 | parsing a formatted number gives it back exactly when it fits the target width, and fails otherwise |
| RustText.SplitJoin | vmix-http/src/client.rs:38-49 | joining separator-free pieces and splitting again gives back the pieces |
| RustText.JoinSplit | vmix-http/src/client.rs:38-49 | splitting and joining again gives back the text |
| Commands.StatusFrom | src/commands.rs:20-34 | "OK" and "ER" map to their statuses; a text that parses as u64 is a length; anything else is kept as detail |
| Commands.StatusRoundTrip | src/commands.rs:20-34 | a status printed and read back is the same status |
| Commands.TallyFrom | src/commands.rs:47-56 | '1' is PROGRAM, '2' is PREVIEW, any other character is OFF |
| Commands.TallyRoundTrip | src/commands.rs:47-56 | a tally printed as its digit and read back is the same tally |
| Commands.TallyMapEntries | src/commands.rs:144-158 | the map has exactly the keys 1..length, and input i+1 has the light of character i |
| Commands.TallyExample | src/commands.rs:143-153 | the example body "0121" gives input 1 off, 2 program, 3 preview and 4 program |
| Commands.BuildTallyMap | src/commands.rs:144-158 | the loop builds that map; a body longer than 65535 panics on the u16 counter overflow |
| Commands.DecodeTokens | src/commands.rs:137-197 | fewer than two tokens panics; an unknown keyword is NoMatchingCommand; the result names the keyword and carries the parsed status; a TALLY line without a body panics on unwrap; an ACTS line whose activator the decoder refuses panics on unwrap, and a panic in that decoder is passed on; XML without a length fails to read, XML with one reads the payload as ReadXml says |
| Commands.Dispatch | src/commands.rs:137-197 | the keyword dispatch as a method computes exactly the decoding function |
| Commands.Decode | src/commands.rs:110-125 | a read error is an Io error, an empty read is ConnectionAborted, otherwise the words of the joined line are decoded |
| Commands.TryFrom | src/commands.rs:107-199 | the stream decoder returns what the decoding function defines |
| Commands.ResponseLineWords | src/commands.rs:125-135 | a response line built from tokens splits back into keyword, status and the same tokens |
| Commands.WordsNoLineFeed | src/commands.rs:125-135 | tokens joined with spaces contain no line feed |
| Commands.FunctionResponse | src/commands.rs:161 | a FUNCTION line decodes to FUNCTION with its status and its first remaining word, if any, as the body |
| Commands.TallyResponse | src/commands.rs:144-158 | a TALLY line for a list of lights decodes to the map giving input i+1 light i |
| Commands.ActsResponse | src/commands.rs:163-169 | an ACTS line decodes to ACTS with an activator exactly when the activator decoder accepts the remaining tokens |
| Commands.TakeBytes | src/commands.rs:176-178 | the read takes the announced length when the stream holds it, otherwise everything the stream holds, and fails only when the stream fails before that length |
| Commands.ReadXml | src/commands.rs:174-185 | a failed read or invalid UTF-8 is an Io error; an unparsable document panics on unwrap; a success is an XML response with the announced status whose document parsed from the text with its line breaks removed |
| Commands.XmlReadsAtMostLength | src/commands.rs:174-187 | two payloads that both hold at least the announced length and agree on those bytes decode alike: nothing past the length is read |
| TcpActs.ParseFloat | vmix-tcp/src/acts.rs:95-97 | a level that does not parse reads as 0.0, otherwise as parsed |
| TcpActs.CreateInputBoolVariant | vmix-tcp/src/acts.rs:104-170 | never panics; too few values is NotEnoughValues; succeeds iff the keyword is in the group, with the input number (0 if unparsable) and the "1" flag |
| TcpActs.CreateInputFloatVariant | vmix-tcp/src/acts.rs:173-192 | the same for the (input, level) keywords |
| TcpActs.CreateSingleFloatVariant | vmix-tcp/src/acts.rs:195-218 | the same for the single-level keywords |
| TcpActs.CreateSingleBoolVariant | vmix-tcp/src/acts.rs:221-256 | the same for the single-flag keywords |
| TcpActs.TryFrom | vmix-tcp/src/acts.rs:259-306 | never panics; empty input is EmptyValueArray; an unknown keyword is UnknownActivator; succeeds iff the keyword is known and enough values follow, and then describes the tokens |
| TcpActs.TryFromDescribes | vmix-tcp/src/acts.rs:259-306 | decoding yields an activator iff the tokens describe that activator |
| TcpActs.ExtraTokensIgnored | vmix-tcp/src/acts.rs:259-306 | trailing tokens after a decodable notification do not change the result |
| TcpActs.TryFromTokens | vmix-tcp/src/acts.rs:259-306 | with a float format that parses back, printing an activator and decoding it gives the activator back |
| TcpActs.InputExample | vmix-tcp/src/acts.rs:269-300 | "Input 3 1" decodes to input 3 active |
| LegacyActs.TryFrom | src/acts.rs:86-462 | panics exactly when a token its arm indexes is missing or a number fails to parse; wherever it returns, it agrees with the guarded decoder |
| LegacyActs.SingleBoolNeverPanics | src/acts.rs:86-462 | a single-flag keyword with a token decodes, whatever the token |
| LegacyActs.InputWithoutNumberPanics | src/acts.rs:86-462 | an input-flag keyword followed by a non-number panics on unwrap |
| LibTcp.KeywordOfData | src/lib.rs:492-596 | each activator's keyword looks up to its own shape and key |
| LibTcp.TryFrom | src/lib.rs:492-596 | an empty slice panics; panics exactly off the defined inputs; an unknown keyword is UnknownActivator; a success describes the tokens |
| LibTcp.TryFromDescribes | src/lib.rs:492-596 | decoding yields an activator iff the tokens describe that activator |
| LibTcp.InputReadsOnlyNumber | src/lib.rs:492-596 | "Input" with a number decodes to that input, whatever follows |
| LibTcp.Decode | src/lib.rs:612-699 | an empty line panics on the missing keyword; a read error is Io; otherwise the words are decoded |
| LibTcp.TryFromStream | src/lib.rs:612-699 | the stream decoder returns what the decoding function defines |
| Connection.ReadEventOf | src/vmix.rs:102-134 | what the reader sees of a decode outcome: a response, a panic, an I/O error of its kind, or (as written) a non-I/O failure for every other error, including the end-of-stream message of the decoder modelled by `Commands.Decode` |
| Connection.ReaderStep | src/vmix.rs:95-137 | one reader iteration under the rule given (AsWritten is the source's): an I/O error that is not a timeout raises the error flag; a response is forwarded iff the receiver is alive; it stops exactly on such errors, a closed receiver and a panic |
| Connection.ReaderRun | src/vmix.rs:95-137 | a raised flag ends the loop before any read; otherwise it stops exactly at the first event that stops the reader, and a fatal read there raises the error flag; it forwards exactly the received responses in order, never clears a flag, raises the error flag only on a fatal read, and when it does not stop it has consumed every event and changed no flag |
| Connection.ReaderLoop | src/vmix.rs:95-137 | the loop over the shared flags, with the source's timeout rule or the corrected one, ends with the flags, deliveries and consumed count of the reader run |
| Connection.WriterStep | src/vmix.rs:149-190 | QUIT is written and ends the writer; a failed write or flush raises the error flag and stops; a receive timeout continues; a closed channel stops |
| Connection.WriterRun | src/vmix.rs:149-190 | a raised flag ends the loop before any receive; otherwise it stops exactly at the first event that stops the writer (QUIT, a failed write or flush, a closed channel), and a failed write there raises the error flag; it writes the received commands in order, raises the error flag only on a failed write, and when it does not stop it has consumed every event and changed no flag |
| Connection.WriterLoop | src/vmix.rs:149-190 | the loop over the shared flags ends with the flags, written commands and consumed count of the writer run, so it too checks the flags before each receive |
| Connection.FatalReadStopsReader | src/vmix.rs:114-128 | an I/O error that is not a timeout, met with clear flags, raises the error flag and ends the reader at that event, delivering nothing |
| Connection.FatalWriteStopsWriter | src/vmix.rs:155-179 | a failed write or flush raises the error flag and ends the writer at that event; QUIT ends it too, raising the flag only if its write failed |
| Connection.QuitIsLastWritten | src/vmix.rs:149-190 | once QUIT is written, nothing is written after it |
| Connection.WrittenBeforeStop | src/vmix.rs:149-190 | when no event before the last one stops the writer, no command but the last one written is QUIT |
| Connection.Signals.constructor | src/vmix.rs:84-85 | both flags start cleared |
| Connection.VmixApi.constructor | src/vmix.rs:21-29 | a new client holds the stream, both thread handles, a listening writer and cleared flags |
| Connection.VmixApi.SendCommand | src/vmix.rs:205-209 | a command is queued while the writer listens, otherwise the call fails with a closed channel |
| Connection.VmixApi.Disconnect | src/vmix.rs:219-221 | sends QUIT |
| Connection.VmixApi.ExecuteFunction | src/vmix.rs:236-248 | queues FUNCTION with the function string of the name and parameters |
| Connection.VmixApi.Drop | src/vmix.rs:36-58 | raises shutdown, shuts the stream once, queues QUIT when the writer listens and there is room, drops both handles, and leaves the client disconnected |
| Connection.FunctionString | src/vmix.rs:236-248 | without parameters the string is the bare name; with parameters it is the name followed by '?'; for a name without '?', a '?' appears iff there are parameters |
| Connection.VmixApi.IsConnected | src/vmix.rs:224-226 | connected iff neither the shutdown nor the error flag is raised, the flags that end both loops |
| Connection.FunctionStringParses | src/vmix.rs:236-248 | the function string splits back on '?', '&' and '=' into the name and each key with its encoded value |
| Connection.WouldBlockEndsReaderAsWritten | src/vmix.rs:110-134 | as written, a WouldBlock read error stops the reader and raises the error flag |
| Connection.TimeoutsKeepReaderRunning | src/vmix.rs:110-134 | with both timeout kinds treated alike, any run of timeouts leaves the flags untouched and the reader running |
| Connection.QuietEventsKeepReaderRunning | src/vmix.rs:95-137 | events that neither stop the reader nor deliver anything are all consumed and leave the flags as they were |
| Connection.EndOfStreamEvent | src/commands.rs:118-120 | with the decoder of `Commands.Decode`, an empty read becomes, as written, a non-I/O failure that does not stop the reader; reported as ConnectionAborted it is fatal |
| Connection.EndOfStreamKeepsReaderRunning | src/vmix.rs:109-133 | as written, with the decoder of `Commands.Decode`, any number of end-of-stream reads leave both flags clear and the reader running |
| Connection.EndOfStreamStopsReader | src/vmix.rs:114-120 | corrected, the first end-of-stream read raises the error flag and ends the reader |
| Connection.PanicEndsReaderQuietly | src/vmix.rs:95-137 | a panic in the decoder ends the reader thread with both flags still clear, so the client still reports itself connected |
| Net.IpText | src/http.rs:19-29 | an IPv4 address prints without ':'; an IPv6 address prints as its text |
| Net.SocketAddrText | src/http.rs:19-29 | a socket address prints as ip:port, with an IPv6 address in brackets |
| HttpClient.NewAsWritten | vmix-http/src/client.rs:21-27 | keeps the port; the host is a valid URL host for IPv4 |
| HttpClient.New | vmix-http/src/client.rs:21-27 | keeps the port; the host is a valid URL host for every well-formed address; agrees with the source for IPv4 |
| HttpClient.NewWithHostPort | vmix-http/src/client.rs:29-35 | the host is kept as given, so the base URL is "http://", the host, ':', the port and "/api" |
| HttpClient.GetBaseUrl | vmix-http/src/client.rs:209-211 | the URL starts with "http://" and the host and ends with "/api", with room for ':' and the port digits |
| HttpClient.BaseUrlParses | vmix-http/src/client.rs:209-211 | the base URL splits back into scheme, host, ':' and a port text that parses to the port, then "/api" |
| HttpClient.V6BaseUrlAsWritten | vmix-http/src/client.rs:21-27 | as written, an IPv6 client's host is not a valid URL host |
| HttpClient.QueryString | vmix-http/src/client.rs:38-49 | empty iff there are no parameters, otherwise it starts with '?' |
| HttpClient.QueryStringParses | vmix-http/src/client.rs:38-49 | the query splits back on '&' and '=' into each key and its encoded value |
| HttpClient.BuildQuery | vmix-http/src/client.rs:38-49 | the loop that appends the pairs computes the query string |
| HttpClient.StatusCheck | vmix-http/src/client.rs:93-98 | succeeds iff the status is 2xx, otherwise fails with the code |
| HttpClient.FindHeader | vmix-http/src/client.rs:106-110 | finds the first header with the name in any ASCII case |
| HttpClient.ContentLength | vmix-http/src/client.rs:106-110 | the first header named Content-Length in any ASCII case decides: a length exactly when its value parses, and then that value; later headers of the name are ignored; without such a header there is none |
| HttpClient.ByteStream.Read | vmix-http/src/client.rs:112-126 | a read returns a prefix of the pending bytes, at most the request and nonempty when bytes remain; it fails only on a failing stream that has run dry |
| HttpClient.ReadBody | vmix-http/src/client.rs:112-126 | the body is the first min(length, available) bytes; it fails iff the stream fails before length bytes; every read asks for min(remaining, 8192) |
| HttpClient.ReadToEnd | vmix-http/src/client.rs:127-139 | reads all pending bytes, or fails on a failing stream |
| HttpClient.SendRequest | vmix-http/src/client.rs:37-141 | the URI is the path and the query; transport failure and non-2xx fail; the body is read by Content-Length or to the end |
| HttpClient.FunctionParams | vmix-http/src/client.rs:144-155 | the map holds the caller's keys plus "Function", whose value is the caller's if given and the function name otherwise |
| HttpClient.ExecuteFunction | vmix-http/src/client.rs:144-155 | one request to "/api" whose query lists the parameter map and always carries a "Function" pair; transport failure and non-2xx fail; after a 2xx it succeeds exactly when the stream does not fail or already holds the whole `Content-Length`, and otherwise fails with the request error; it never panics |
| HttpClient.IsConnected | vmix-http/src/client.rs:192-197 | connected only if the request got a 2xx response, and always then when the body reads |
| HttpClient.GetXmlState | vmix-http/src/client.rs:157-162 | a request error propagates; invalid UTF-8 is an error; valid text fails with InvalidXml iff it does not parse, and otherwise is the parsed state; it panics only if the request did |
| HttpTally.TallyFor | vmix-http/src/client.rs:164-190 | PROGRAM iff the input is active, PREVIEW iff it is the preview and not active, OFF otherwise |
| HttpTally.InputNumbers | vmix-http/src/client.rs:164-190 | one number per input, 0 for a number that does not parse |
| HttpTally.TallyMapOf | vmix-http/src/client.rs:164-190 | the keys are exactly the input numbers and each carries its tally |
| HttpTally.TallyMapOrderFree | vmix-http/src/client.rs:164-190 | the map depends only on the set of input numbers, not their order |
| HttpTally.OneProgramOnePreview | vmix-http/src/client.rs:164-190 | only the active input can be PROGRAM, and it is when listed; only the preview input can be PREVIEW, and it is when listed and not active |
| HttpTally.TallyFromState | vmix-http/src/client.rs:164-190 | the loop over the inputs builds the tally map of the state |
| HttpTally.GetTallyData | src/http.rs:78-104 | an error fetching the state propagates; otherwise the tally map of the state |
| LegacyHttp.New | src/http.rs:19-29 | the base URL is vmix-http's base URL for the same address with an IPv6 host in brackets |
| LegacyHttp.NewWithHostPort | src/http.rs:31-41 | the base URL is vmix-http's base URL for the same host and port |
| LegacyHttp.BaseUrlsAgree | src/http.rs:19-41 | both constructors give the same URL for IPv4, matching vmix-http's; for every address it is vmix-http's URL with the IPv6 host bracketed |
| LegacyHttp.FunctionPairs | src/http.rs:51-56 | the pairs are "Function" with the name, then the caller's pairs in order |
| LegacyHttp.DuplicateFunctionKept | src/http.rs:51-56 | a caller's "Function" pair is sent beside the function name, where vmix-http keeps only the caller's |
| LegacyHttp.ExecuteFunction | src/http.rs:43-68 | the URL is the base URL and the query of those pairs; a bad URL or transport failure fails; otherwise succeeds iff 2xx |
| LegacyHttp.IsConnected | src/http.rs:106-111 | connected iff the request got through with a 2xx status |
| LegacyHttp.GetXmlState | src/http.rs:70-76 | a transport error fails; otherwise succeeds iff the text parses as XML, whatever the status |

## Left out

- Threads, channels and their timeouts. The reader and writer loops are modelled as runs over the sequence of events each thread sees. Interleaving, blocking and `recv_timeout` durations are not modelled. The shared atomic flags are one `Signals` object.
- The reader thread of src/vmix.rs decodes a `RecvCommand`, whose `try_from` is not part of this model. It is modelled by the decoder of src/commands.rs, `Commands.Decode`, so the reader's events come from that decoder. The end-of-stream finding depends on this.
- HttpClient.SendRequest: the response head is read in chunks of up to 8192 bytes, and each chunk goes to the decoder whole. Body bytes that arrive in the same chunk as the end of the head therefore never reach the body loops, and the body loses its beginning. The model takes `stream` to be what the socket still holds after the decoder's last read, so it does not show the lost bytes. Whether they are really lost depends on the response decoder, which is not part of this model.
- The diagnostics printed to standard error (src/vmix.rs:120, 126, 132, 170 and 176) and to standard output (vmix-tcp/src/acts.rs:301) are not modelled, because they change nothing the model computes.
- LegacyHttp.New and LegacyHttp.NewWithHostPort: the `expect("Failed to create HTTP client")` panic when the reqwest client cannot be built (src/http.rs:23 and 35) is not modelled, because building the client is foreign code.
- The TCP connection itself (`TcpStream::connect`, `set_read_timeout`, `try_clone`) and `try_receive_command` are not modelled: they are I/O.
- Connection.VmixApi.Drop: joining the threads is not modelled, because the threads are not part of this model. The `JoinHandle`s are only taken.
- `BufReader` read-ahead: the bytes after the first line are given as the XML `payload`, with how the stream ends after them (a clean end or an I/O error).
- XML deserialisation (serde and quick-xml), UTF-8 decoding and float parsing are foreign functions. They are parameters of type `Foreign` or `string -> Option<F32>`.
- `f32`/`f64` arithmetic: levels are opaque values.
- URL form encoding (`urlencoding::encode`, reqwest's query serialiser) is the parameter `encode`. The round-trip lemmas assume it never emits '&' or '='.
- The HTTP/1.1 request encoder and response decoder of the shiguredo crate, and reqwest's transport. These are given as their outcome: whether the request was sent, and the decoded status and headers.
- HashMap iteration order is given as a sequence, `order` or `params`.
- HttpClient.ByteStream: a failing stream fails only after its pending bytes, because a failure in the middle of the data behaves the same way once the bytes before it are read.
- HttpClient.IsConnected: the body is read and then discarded. The ensures does not say which way a failing body read goes when the status is 2xx.
- LegacyHttp.ExecuteFunction: the URL is the stored base URL with the query appended, so `Url::parse`'s normalisation (a lower-cased host, a dropped default port 80) is not modelled; `urlOk` stands for whether it parses.
- The request timeout of both HTTP clients only bounds waiting, so it is not modelled.
- IPv6 addresses are kept as their display text. The compression rules of `Ipv6Addr`'s `Display` are not modelled, nor is the `%scope` suffix that `SocketAddrV6`'s display adds inside the brackets for a nonzero scope id (`[fe80::1%2]:8088`).
- `get_active_input` and `get_preview_input` are the same `parse().unwrap_or(0)` used by the tally map, so they are not modelled separately.
- The convenience wrappers (`cut`, `fade`, `preview_input`, `set_text`, recording and streaming) only call `execute_function` with fixed names, so they are not modelled separately.
- The TCP client's `get_xml_state` and `get_tally_data` wait on the channel for a reply. They are concurrency, so they are not modelled.
- The release-build wrap-around of the TALLY input counter is not modelled. The debug-build overflow panic is modelled.
- Mutex poisoning and the `unsafe impl Send/Sync` declarations are not modelled.
- The byte encoding of `SendCommand` for the wire is not modelled. Only the `FUNCTION` argument string is.

## Findings

| source | as written | input that shows it | evidently intended | confidence | as-written member | corrected member |
|---|---|---|---|---|---|---|
| src/vmix.rs:110-134 | only `ErrorKind::TimedOut` counts as a read timeout, so `WouldBlock` raises the error flag and ends the reader | a read timeout reported as `WouldBlock`, which is how Unix platforms report an expired socket read timeout | both timeout kinds continue the loop | medium, not executed | Connection.WouldBlockEndsReaderAsWritten | Connection.TimeoutsKeepReaderRunning |
| vmix-http/src/client.rs:21-27 | the host is `ip().to_string()`, so an IPv6 address goes into the URL and `Host` header without brackets | `[::1]:8088` gives `http://::1:8088/api` | `http://[::1]:8088/api`, as `SocketAddr`'s display gives in src/http.rs | high, not executed | HttpClient.V6BaseUrlAsWritten | HttpClient.New |
| src/commands.rs:118-120 | the end of the stream is reported as `anyhow!(ErrorKind::ConnectionAborted)`, a message error rather than an `io::Error`; if the reader's decoder reports it the same way, its `downcast_ref` fails and it goes on reading forever without raising the error flag | the peer closes the connection, so every `read_line` returns 0 at once | the `ConnectionAborted` arm of src/vmix.rs:114-120 runs: the error flag is raised and the reader ends | low: conditional on the reader's decoder, which is not part of this model, behaving as `Command::try_from` does; not executed | Connection.EndOfStreamKeepsReaderRunning | Connection.EndOfStreamStopsReader |
