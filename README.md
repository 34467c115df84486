# autogoal-remote: a verified model of the remote-algorithm protocol

This project is a Dafny model of the distributed part of autogoal-remote.
Algorithm instances live in a server process's pool. Clients reach them
through proxy objects, which talk to the server over a websocket. The model
covers five parts of that protocol:

- **Chunked transport** (`Chunking`, from `utils.py`). A large text message
  travels as one `chunk_count` frame followed by that many `chunk` frames. The
  connection is a `WebSocket` object holding the frames still to be read and
  the frames sent so far. `send_large_message` and `receive_large_message`
  are loop methods. Each is proved against pure functions: `Encoded` for the
  frames sent, `Receive` for what is read back.
- **Codec and descriptor** (`Codec`, from `remote_algorithm.py`). The Latin-1
  text layer maps bytes to code points U+0000..U+00FF. It is composed with
  opaque object serializers (pickle, and dill for behavioural objects). The
  contrib tag is extracted from the module path with a `re.search` of
  `autogoal_(\w+)\.`, where `\w` is a predicate parameter. The descriptor
  (`RemoteAlgorithmDTO`) is built by `from_local_class`.
- **Messages** (`Protocol`). These are the JSON requests and replies shared by
  server, client and proxy. The JSON text layer, `str(uuid)` and `uuid.UUID`
  are opaque function pairs. `Lossless` and `Readable` name their round-trip
  assumptions.
- **Server** (`Server`, from `server.py`). The instance pool is a `map` field
  of `AlgorithmServer`. The websocket handlers `call`, `has_attr`,
  `instantiate` and `delete_algorithm` are methods of that class. Each is
  written step by step and proved to agree with a pure function of the
  request and the old pool. The HTTP `call` handler is a pure function beside
  them.
- **Client and proxy** (`Client` and `Proxy`, from `client.py` and
  `proxy.py`). These cover:
  - address resolution and route text;
  - the error check of `call_algorithm`;
  - `build_proxy_class`, and the `__getattribute__` dispatch;
  - `__repr__`/`__str__`, `__new__`, `__del__` and `__exit__`.

  They are composed with the server functions over the transport, so a claim
  about a proxy operation is a claim about the remote instance and the pool.

The Python runtime the server calls into is one `Runtime` value of opaque
functions. It covers `getattr`, `hasattr(_, "__call__")`, `dynamic_call`, the
sandboxed `RestrictedWorkerWithState`, `dynamic_import` and construction.
Failures are `Result`/`Option` values carrying what Python would raise.

The model follows these details of the code:

- Only a callable named `run` goes to the bounded worker on the websocket
  `call`. The HTTP `call` bounds every callable.
- The attribute lookup and the argument decoding of the websocket `call` lie
  outside its `try`. A failure there closes the connection with no reply; it
  is not reported as an error payload.
- `instantiate` stores under whatever key `uuid4()` drew, overwriting on a
  collision. Uniqueness of new keys is not assumed; the fresh case is a
  separate conclusion of `Server.InstantiateStores`.
- Access through a deleted proxy fails because the capability reply has no
  `exists` field. It is not a dedicated stale-handle error.
- A call on an unknown id does not reach the caller as a not-found error (see
  Findings). The proxy operations (`Proxy.ProxyCall`, `Proxy.Access`,
  `Proxy.Representation`, `Proxy.ExitAsWritten`) are composed with the call
  handler as written. The corrected handler is used only where the
  correction is stated: `Proxy.CallExchange` with `corrected` set, and
  `Proxy.NotFoundReported`.

## Model

| member | source | states |
|---|---|---|
| `Chunking.ChunksFrom` | autogoal_remote/distributed/utils.py:17 | the slices join back to the text; each has 1..chunk_size characters and all but the last exactly chunk_size; there are ceil(len/size) of them, none for empty text |
| `Chunking.Split` | autogoal_remote/distributed/utils.py:17 | splitting fails exactly for chunk size 0 (`range` step 0); a negative size gives no slices |
| `Chunking.FramesLayout` | autogoal_remote/distributed/utils.py:19-22 | the stream is one count frame whose count is the number of slices, then one data frame per slice in order, then whatever follows |
| `Chunking.ReadChunks` | autogoal_remote/distributed/utils.py:39-43 | the loop of `receive_large_message`: it never takes frames before its starting position or beyond the end of the stream |
| `Chunking.ReadChunksAccepts` | autogoal_remote/distributed/utils.py:39-43 | the receive loop succeeds iff the next `count` frames exist and are all data frames; then it has taken exactly those and returns their payloads in order |
| `Chunking.ReadChunksStops` | autogoal_remote/distributed/utils.py:40-43 | a failed loop stops at the first non-data frame (taking it) or at the end of the stream, and every frame before it was a data frame |
| `Chunking.Receive` | autogoal_remote/distributed/utils.py:35-37 | a first frame that is not a count frame fails the read after one frame; a read never takes more frames than there are |
| `Chunking.ReceiveAccepts` | autogoal_remote/distributed/utils.py:25-46 | receiving succeeds iff the stream is well framed; then it consumes exactly 1 + count frames and returns the joined payloads |
| `Chunking.ReceiveStops` | autogoal_remote/distributed/utils.py:35-43 | a failed receive names the first offending frame, or the end of the stream, and has consumed exactly up to it |
| `Chunking.FramesReceived` | autogoal_remote/distributed/utils.py:19-45 | receiving the frames sent for a list of slices gives the slices joined, after 1 + slices frames, leaving later frames untouched |
| `Chunking.RoundTrip` | autogoal_remote/distributed/utils.py:7-46 | for every chunk size >= 1, receiving what was sent for a text gives that text and consumes exactly 1 + ceil(len/size) frames, whatever follows |
| `Chunking.TenThousandInFiveHundreds` | autogoal_remote/distributed/utils.py:17 | a 10,000-character text at chunk size 500 is 20 slices |
| `Chunking.WebSocket.Send` | autogoal_remote/distributed/utils.py:14 | sending appends exactly one frame to what was sent and reads nothing |
| `Chunking.WebSocket.Next` | autogoal_remote/distributed/utils.py:32 | receiving takes exactly the first waiting frame, or reports a closed peer when none is left |
| `Chunking.SendLargeMessage` | autogoal_remote/distributed/utils.py:7-22 | raises exactly for chunk size 0, before sending anything; otherwise it appends exactly the count frame and the data frames of `Encoded` and reads nothing |
| `Chunking.ReceiveLargeMessage` | autogoal_remote/distributed/utils.py:25-46 | returns what `Receive` says of the waiting frames and takes exactly the frames it consumed, sending nothing |
| `Codec.Decode` | autogoal_remote/distributed/remote_algorithm.py:20-21 | the text has one character per byte, with code point equal to the byte |
| `Codec.Encode` | autogoal_remote/distributed/remote_algorithm.py:29-30 | encoding succeeds iff every code point is below 256, then byte i is code point i; otherwise it reports the first character that is not |
| `Codec.Dumps` | autogoal_remote/distributed/remote_algorithm.py:15-17 | `dumps` fails with the serializer's error exactly when the serializer fails; otherwise its text is Latin-1 and encodes back to the serializer's bytes |
| `Codec.Loads` | autogoal_remote/distributed/remote_algorithm.py:24-26 | `loads` of text with a character above U+00FF fails at the first such character; Latin-1 text loads exactly when the chosen serializer reads its bytes |
| `Codec.EncodeDecode` | autogoal_remote/distributed/remote_algorithm.py:20-30 | `encode(decode(b)) == b` for every byte string |
| `Codec.DecodeEncode` | autogoal_remote/distributed/remote_algorithm.py:29-30 | a string is recovered from its encoding exactly when it has one |
| `Codec.LoadsDumps` | autogoal_remote/distributed/remote_algorithm.py:15-26 | `loads(dumps(x))` is the serializer's own round trip on the bytes, so it gives back `x` for a faithful serializer |
| `Codec.WordRun` | autogoal_remote/distributed/remote_algorithm.py:12 | the greedy `\w+` run: all its characters are word characters and the next one is not |
| `Codec.MatchIsMaximalRun` | autogoal_remote/distributed/remote_algorithm.py:12 | since `.` is not a word character, the group of a match is the maximal word run after `autogoal_` |
| `Codec.SearchFromLeftmost` | autogoal_remote/distributed/remote_algorithm.py:47 | the search returns the leftmost match with its unique group length, and nothing exactly when no position matches |
| `Codec.SearchFromFinds` | autogoal_remote/distributed/remote_algorithm.py:47 | what the search returns is a position at or after its start where the pattern probes, with the maximal word run after `autogoal_` |
| `Codec.ContribTagFound` | autogoal_remote/distributed/remote_algorithm.py:47 | a tag is found iff the pattern matches the module path somewhere |
| `Codec.ContribTag` | autogoal_remote/distributed/remote_algorithm.py:47 | `.group("contrib")` exists exactly when the search matched, and is then a non-empty run of word characters as long as the group |
| `Codec.ContribTagShape` | autogoal_remote/distributed/remote_algorithm.py:12 | the tag is non-empty, made of word characters with no dot, and sits between `autogoal_` and a dot at the leftmost match |
| `Codec.FromLocalClass` | autogoal_remote/distributed/remote_algorithm.py:43-63 | fails when the module path has no contrib tag; on success name and module are copied verbatim and the contrib is the tag |
| `Codec.DescriptorFieldsRoundTrip` | autogoal_remote/distributed/remote_algorithm.py:48-52 | with faithful serializers every serialized field loads back, with the serializer it was written with, to the class's own value |
| `Protocol.ReceiveJson` | autogoal_remote/distributed/server.py:213 | takes one frame and returns it as JSON, or nothing on a closed stream; sends nothing |
| `Protocol.SendJson` | autogoal_remote/distributed/server.py:241 | appends exactly one frame holding the JSON text of the value |
| `Protocol.CallRequest` | autogoal_remote/distributed/client.py:26-31 | the call request has exactly the fields instance_id, attr, args and kwargs, holding the given strings |
| `Protocol.AttrRequest` | autogoal_remote/distributed/client.py:46 | the has_attr request has exactly the fields instance_id and attr |
| `Protocol.InstantiateRequest` | autogoal_remote/distributed/client.py:54 | the instantiate request has exactly algorithm_dto, args and kwargs, holding the given values |
| `Protocol.DescriptorJson` | autogoal_remote/distributed/remote_algorithm.py:33-41 | `dto.dict()` has exactly the eight declared fields |
| `Protocol.ParseDescriptor` | autogoal_remote/distributed/server.py:237 | parsing succeeds exactly when every declared field is present as a string, and the descriptor then holds those strings |
| `Protocol.FieldsPresent` | autogoal_remote/distributed/server.py:237 | every declared field is a string exactly when each of the eight named fields is |
| `Protocol.ParseDescriptorJson` | autogoal_remote/distributed/proxy.py:47 | a descriptor survives `dict()` followed by `parse_obj` unchanged |
| `Server.CallInvocation` | autogoal_remote/distributed/server.py:174-196 | the call handler uses the bounded worker iff the attribute is callable and named `run`, calls other callables in process, and returns non-callables without invocation |
| `Server.HttpInvocation` | autogoal_remote/distributed/server.py:76-84 | the HTTP call handler bounds every callable and invokes nothing else |
| `Server.InvocationsAgree` | autogoal_remote/distributed/server.py:180-186 | the two handlers choose alike exactly for non-callables and for `run` |
| `Server.Argument` | autogoal_remote/distributed/server.py:177-178 | a missing or non-string argument field is a malformed request; otherwise it is what `loads` gives, or its error |
| `Server.Finish` | autogoal_remote/distributed/server.py:203-205 | once the result is known the reply is always sent in chunks and the pool is unchanged; a raised error, or an error of `dumps` on the result, becomes `{"error": str(e)}`, and otherwise the reply carries the dumped result |
| `Server.CallHandler` | autogoal_remote/distributed/server.py:163-207 | the websocket call handler never adds or removes an instance, writes the pool only for a request naming `run`, and sends a plain frame exactly for an id the pool does not hold |
| `Server.CallSession` | autogoal_remote/distributed/server.py:163-164 | from the outcome of reading the request, the handler never adds or removes an instance |
| `Server.CallNotFound` | autogoal_remote/distributed/server.py:165-171 | an id the pool does not hold gets the not-found error as one plain frame, and the pool is untouched |
| `Server.CallWritesOnlyAfterRun` | autogoal_remote/distributed/server.py:198-201 | the call handler never changes the key set; it writes only the requested key, only for a callable `run` whose bounded call returned a replacement, which is what is stored |
| `Server.CallRunReplaces` | autogoal_remote/distributed/server.py:198-203 | a bounded `run` that returns a replacement stores it under the requested key before the reply is built |
| `Server.CallFaultsOutsideTry` | autogoal_remote/distributed/server.py:173-178 | a failed attribute lookup, `args` decoding or `kwargs` decoding sends nothing and leaves the pool alone |
| `Server.CallCatchesInsideTry` | autogoal_remote/distributed/server.py:188-205 | once the arguments are decoded the reply is always a chunked one; an error of the invocation, of unpacking the bounded worker's pair, or of `dumps` on the result is sent as `{"error": str(e)}` |
| `Server.CallReturnsValue` | autogoal_remote/distributed/server.py:188-190 | a non-callable attribute is returned as it is |
| `Server.CallHandlerCorrected` | autogoal_remote/distributed/server.py:167-171 | the corrected handler never sends a plain unchunked frame |
| `Server.CorrectionOnlyForNotFound` | autogoal_remote/distributed/server.py:167-171 | the correction leaves the pool update and every reply for a pooled id as written, and sends the not-found error in chunks |
| `Server.CorrectedCallSession` | autogoal_remote/distributed/server.py:163-207 | the corrected session never sends a plain frame and updates the pool exactly as the written one does |
| `Server.Probe` | autogoal_remote/distributed/server.py:222-229 | `exists` iff `getattr` succeeds for the requested name, `is_callable` iff also callable, so callable implies exists |
| `Server.HasAttrHandler` | autogoal_remote/distributed/server.py:210-230 | has_attr never touches the pool; an unreadable id sends nothing, an unknown one gets the not-found error, a pooled one gets the probe's capability reply |
| `Server.CapabilityConsistent` | autogoal_remote/distributed/server.py:228-230 | a capability reply never says callable without saying it exists |
| `Server.InstantiateHandler` | autogoal_remote/distributed/server.py:236-241 | instantiate either raises with the pool untouched, or replies with the new id and stores the new instance under it, changing nothing else |
| `Server.InstantiateStores` | autogoal_remote/distributed/server.py:239-241 | instantiate either sends nothing and leaves the pool, or stores under the new id, replies with it and keeps every other entry; for a fresh id the pool grows by exactly that entry |
| `Server.InstantiateConstructs` | autogoal_remote/distributed/server.py:237-240 | the stored instance is the class the descriptor names, constructed from the decoded arguments |
| `Server.DeleteHandler` | autogoal_remote/distributed/server.py:248-256 | an unreadable id raises; otherwise the id is gone, every other entry is kept, and the reply is the same whether it was there or not |
| `Server.DeleteIdempotent` | autogoal_remote/distributed/server.py:250-254 | deleting twice is deleting once |
| `Server.HttpCall` | autogoal_remote/distributed/server.py:70-73 | the HTTP call rejects an id the pool does not hold with status 400 and the not-found message |
| `Server.HttpCallBoundsEveryCallable` | autogoal_remote/distributed/server.py:76-95 | a callable attribute of any name goes through the bounded worker and its result goes to `dumps` without unpacking a replacement |
| `Server.AlgorithmServer.constructor` | autogoal_remote/distributed/server.py:33 | the pool starts empty |
| `Server.AlgorithmServer.LoadArgument` | autogoal_remote/distributed/server.py:177 | decodes one argument field as `Argument` specifies |
| `Server.AlgorithmServer.Call` | autogoal_remote/distributed/server.py:160-207 | the step-by-step handler consumes exactly the request frames, leaves the pool `CallSession` gives, and sends exactly that outcome's frames |
| `Server.AlgorithmServer.HasAttr` | autogoal_remote/distributed/server.py:210-230 | the step-by-step handler takes one frame and sends exactly the frames of the `HasAttrHandler` outcome, without changing the pool |
| `Server.AlgorithmServer.Instantiate` | autogoal_remote/distributed/server.py:233-241 | the step-by-step handler takes one frame, leaves the pool `InstantiateHandler` gives and sends its reply |
| `Server.AlgorithmServer.Delete` | autogoal_remote/distributed/server.py:244-256 | the step-by-step handler leaves the pool `DeleteHandler` gives and sends its reply |
| `Client.GetAddress` | autogoal_remote/distributed/client.py:6-12 | a given alias that resolves overrides ip and port; an absent or unresolved alias returns them unchanged |
| `Client.GetAddressStable` | autogoal_remote/distributed/client.py:6-12 | resolving an address again with the same alias changes nothing |
| `Client.IntToStringValue` | autogoal_remote/distributed/client.py:15 | the decimal text of the port reads back as the port |
| `Client.BuildRouteSpec` | autogoal_remote/distributed/client.py:14-15 | the route is `ws://`, then the ip or the default host, and the number after its last colon is the port or 8000 |
| `Client.BuildRoute` | autogoal_remote/distributed/client.py:14-15 | the route is `ws://`, the ip or the default host, a colon, and a port text with no colon |
| `Client.CheckReply` | autogoal_remote/distributed/client.py:37-42 | the reply is returned unchanged iff it is an object whose `error` is absent or null; a string error raises with the `Proxy Error (server-side). ` prefix |
| `Client.CallReply` | autogoal_remote/distributed/client.py:34-42 | a transport failure of the reply is raised as it is; a returned reply is the JSON of the reassembled text, is an object and carries no error |
| `Client.CallAlgorithm` | autogoal_remote/distributed/client.py:24-42 | sends the call request in chunks of 500, reads the reply with chunked reassembly, and returns the checked reply |
| `Client.HasAttr` | autogoal_remote/distributed/client.py:44-48 | sends one has_attr message and returns the one reply read, unchecked |
| `Client.Instantiate` | autogoal_remote/distributed/client.py:51-57 | sends one instantiate message and returns the one reply read, unchecked |
| `Proxy.BuildProxyClass` | autogoal_remote/distributed/proxy.py:31-32 | the class stores the descriptor and its contrib tag |
| `Proxy.ProxyClassNaming` | autogoal_remote/distributed/proxy.py:23-25 | a falsy ip or port is stored as `0.0.0.0` or 8000; the name is the stored ip, a colon, the port's digits, a dash and the descriptor's name |
| `Proxy.ProxyClassRoute` | autogoal_remote/distributed/proxy.py:33-34 | the route built from the stored ip and port is the route of the original arguments |
| `Proxy.ProxySignature` | autogoal_remote/distributed/proxy.py:27-30 | the four loaders are independent: `input_types` and `output_type` succeed exactly when pickle reads their own field, the two signatures exactly when dill reads theirs |
| `Proxy.ProxySignatureOfLocalClass` | autogoal_remote/distributed/proxy.py:27-30 | a proxy class built from a local class's descriptor has all four loaders return that class's own types and signature, given faithful serializers |
| `Proxy.RequestDelivered` | autogoal_remote/distributed/client.py:33 | the chunked request reaches the server as written |
| `Proxy.ReplyDelivered` | autogoal_remote/distributed/client.py:34-35 | a chunked reply reaches the client as written and is checked |
| `Proxy.ArgumentsDelivered` | autogoal_remote/distributed/proxy.py:71 | the arguments the server decodes are the ones the proxy encoded |
| `Proxy.CallExchange` | autogoal_remote/distributed/client.py:24-42 | one `call_algorithm` exchange with the call handler never adds or removes an instance, and with a lossless JSON layer only a `run` request changes the pool |
| `Proxy.ProxyCall` | autogoal_remote/distributed/proxy.py:67-74 | `_proxy_call` against the server as written: undumpable arguments raise before anything is sent; no call adds or removes an instance; with a lossless JSON layer a call of anything but `run` leaves the pool as it was |
| `Proxy.ProxyCallInProcess` | autogoal_remote/distributed/proxy.py:67-74 | a proxied call of a callable other than `run` returns what the remote method returns, and the pool is unchanged |
| `Proxy.ProxyCallRun` | autogoal_remote/distributed/server.py:198-201 | a proxied `run` returns the bounded worker's result and the replacement takes the pooled instance's place |
| `Proxy.ProxyCallRemoteError` | autogoal_remote/distributed/client.py:38-40 | a remote exception reaches the caller as `Proxy Error (server-side). ` followed by the server's message |
| `Proxy.ProxyCallAfterDelete` | autogoal_remote/distributed/proxy.py:67-74 | as written, a proxied call on an instance the pool no longer holds fails in the client transport at the first frame, not with the not-found message |
| `Proxy.NotFoundUnreadable` | autogoal_remote/distributed/server.py:167-171 | as written, a call on an unknown id fails in the client at the first frame, which has no `type`, and the message is lost |
| `Proxy.NotFoundReported` | autogoal_remote/distributed/server.py:167-171 | with the correction, a call on an unknown id raises with the server's not-found message |
| `Proxy.Decide` | autogoal_remote/distributed/proxy.py:84-92 | a name is read locally iff it is one of the six local names |
| `Proxy.OneCapabilityQuery` | autogoal_remote/distributed/proxy.py:96 | for every server state, an access of a local name sends no request; every other name, dunders included, sends exactly one capability query, first, and anything after it is the `__getattribute__` call |
| `Proxy.AccessRequests` | autogoal_remote/distributed/proxy.py:92-104 | an access sends nothing for a local name, and otherwise the capability query, followed by the fetching call when one was made |
| `Proxy.DecideOnCapability` | autogoal_remote/distributed/proxy.py:97-104 | exists and callable forwards, exists alone fetches the value, and no attribute gives None |
| `Proxy.RunIsRemote` | autogoal_remote/distributed/proxy.py:114-115 | the class's own empty `run` is never what an access finds |
| `Proxy.CapabilityDelivered` | autogoal_remote/distributed/proxy.py:76-79 | for a pooled instance the capability reply is the server's probe of the remote instance |
| `Proxy.Access` | autogoal_remote/distributed/proxy.py:81-104 | `__getattribute__` never adds or removes an instance, and with a lossless JSON layer leaves the pool as it was |
| `Proxy.AccessAgreesWithRemote` | autogoal_remote/distributed/proxy.py:94-104 | an attribute the remote lacks reads as None, a callable one as a forwarding callable (both after the capability query alone, with the pool unchanged), and any other as the remote `__getattribute__` result |
| `Proxy.AccessAfterDelete` | autogoal_remote/distributed/proxy.py:96-97 | after the instance left the pool, every non-local access raises and the pool is unchanged |
| `Proxy.Representation` | autogoal_remote/distributed/proxy.py:106-112 | `repr` and `str` never add or remove an instance, and with a lossless JSON layer leave the pool as it was |
| `Proxy.RepresentationForm` | autogoal_remote/distributed/proxy.py:106-112 | repr and str succeed iff the remote `__repr__` call does, and are the class name, `(`, that result and `)` |
| `Proxy.RepresentationOfPooled` | autogoal_remote/distributed/proxy.py:106-112 | for a pooled instance the representation is the class name around the formatted result of the remote instance's own `__repr__`, with the pool unchanged |
| `Proxy.RepresentationAfterDelete` | autogoal_remote/distributed/proxy.py:106-112 | as written, `repr` of a proxy whose instance was deleted fails in the client transport |
| `Proxy.DeleteUrlTarget` | autogoal_remote/distributed/proxy.py:61-63 | the delete goes to the host and port of the websocket routes, and the path segment after `/algorithm/` is the text of the id |
| `Proxy.Del` | autogoal_remote/distributed/proxy.py:59-65 | `__del__` swallows every error, so its only outcome is the pool; it never adds or changes an entry, and an undelivered request changes nothing |
| `Proxy.DelRemoves` | autogoal_remote/distributed/proxy.py:59-65 | a delivered delete removes exactly the instance's entry; an undelivered one changes nothing; neither raises |
| `Proxy.New` | autogoal_remote/distributed/proxy.py:44-51 | `__new__` gives a proxy of the class it was called on, and the pool changes at most at the new id |
| `Proxy.NewRegisters` | autogoal_remote/distributed/proxy.py:44-51 | creating a proxy instance constructs the remote one from the descriptor's class, stores it under the new id, and the proxy holds that id |
| `Proxy.ExitAsWritten` | autogoal_remote/distributed/proxy.py:56-57 | as written, leaving a `with` block never makes the delete request and no instance leaves the pool; with a lossless JSON layer the pool is unchanged |
| `Proxy.ExitNotCallable` | autogoal_remote/distributed/proxy.py:56-57 | as written, leaving a `with` block for an instance without a remote `__del__` raises TypeError and leaves the pool as it was |
| `Proxy.Exit` | autogoal_remote/distributed/proxy.py:56-65 | the corrected exit makes the delete request and never raises; it only removes entries, and keeps them all when the server cannot be reached |
| `Proxy.ExitDeletes` | autogoal_remote/distributed/proxy.py:56-65 | with a reachable server the corrected exit removes the pooled instance and nothing else, while the exit as written keeps it |

## Left out

- Network and event loop. The websocket and HTTP libraries, `asyncio.run`
  and `async with` are not modelled. A connection is a queue of decoded
  frames. Each exchange of `Proxy` composes the client with the server
  function on exactly the frames sent.
- JSON text. `json.dumps`/`json.loads` are an opaque pair. Numbers are
  integers only, so floating point is not modelled.
- pickle and dill. The serializers are opaque `Pickler` values.
  `Faithful` states their round trip where a lemma needs it.
- The sandboxed worker. `RestrictedWorkerWithState` and `dynamic_call` are
  oracles of the `Runtime`. Enforcement of the 20 s and 4 GB limits happens
  inside the worker and is not modelled; only the limits passed are.
- In-place mutation of a pooled instance by an in-process call is not
  modelled. Only the replacement returned by a bounded `run` changes the
  pool.
- UUIDs. Parsing and printing are the opaque `KeyText` pair. `uuid4()` is
  the `newId` parameter, so uniqueness is not modelled.
- Concurrency. Sessions sharing the pool are modelled one handler run at a
  time.
- Server discovery is not modelled. Both the HTTP `/algorithms` handler and
  the websocket `/get-algorithms` handler only list `find_classes()` results.
  The HTTP one calls `from_algorithm_class`, which `RemoteAlgorithmDTO` does
  not define. Neither is part of any other operation here.
- The HTTP `instantiate` handler (server.py lines 114-120) calls
  `get_original_class`, which the DTO does not define, so it always raises.
  It is not modelled.
- The HTTP `has_attr` handler (server.py lines 98-111) is modelled only by
  `Server.Probe`, which it shares with the websocket handler. Its 400 reply
  is as in `Server.HttpCall`.
- The HTTP `delete` handler is `Server.DeleteHandler`, shared with the
  websocket one; only the transport differs.
- `Server.HttpCall`: an argument-decoding error is kept apart as
  `Internal(BadArgument(e))`. The handler reports it as a status-500
  `HTTPException` with `str(e)` as detail, because the model's `LoadError`
  is not a message text.
- `Protocol.ParseDescriptor` accepts only string fields. pydantic's
  coercion of other JSON types to `str` is not modelled.
- `Client.CheckReply`: a non-string, non-null `error` is kept as
  `ProxyErrorValue(error)`. Its f-string formatting is not modelled.
- The `inst == None` test of the handlers is taken as pool membership. An
  instance whose own `__eq__` claims equality with `None` is not modelled.
- Python `assert` statements in `receive_large_message` are modelled as
  failures. Running with `-O`, which drops them, is not modelled.
- `__enter__` returns the instance itself and is not modelled separately.
- `RemoteAlgorithmBase.run` does nothing. It is never reached through an
  access, which `Proxy.RunIsRemote` states.
- Finalization of a proxy object by the garbage collector is not modelled.
  When it happens, Python calls the class's `__del__`, which is `Proxy.Del`.
- The `sent` requests of `Proxy.Access` record the capability query and the
  fetching call. The messages of a call made later through a forwarding
  callable are those of `Proxy.ProxyCall`.
- `Proxy.AccessAgreesWithRemote` models the forwarding callable by the
  name it forwards. Applying it is `Proxy.ProxyCall` with that name.
- `get_local_class` and `dynamic_import` are the `importClass` oracle. A
  class that cannot be imported gives `UnknownClass`.
- The contrib search takes the Unicode class `\w` as a predicate parameter.
  It requires only that `.` is not a word character.
- The command line, the production prediction server and client, the
  package re-exports, and the YAML storage of aliases are not modelled.
  Stored aliases are a `map` argument of `Client.GetAddress`.

## Findings

| source | as written | input that shows it | evidently intended | confidence | as-written member | corrected member |
|---|---|---|---|---|---|---|
| autogoal_remote/distributed/server.py:167-171 | the call handler sends its not-found error with `send_json` as one plain frame. `call_algorithm` (client.py line 34) reads the reply with `receive_large_message`, whose first read expects a `chunk_count` frame. | a call on an id the pool does not hold, such as a proxy used after its instance was deleted | send the error with `send_large_message` like every other reply of that endpoint, so the client raises `Proxy Error (server-side). Algorithm instance with id=… not found` | high, not executed | `Proxy.NotFoundUnreadable` | `Proxy.NotFoundReported` |
| autogoal_remote/distributed/proxy.py:56-57 | `__exit__` returns `self.__del__()`. That goes through `__getattribute__`, which asks the server about `__del__` and calls whatever comes back, so `__exit__` does not reach the proxy's own `__del__`. The instance stays pooled until the proxy is finalized, when Python calls `type(p).__del__` directly. | leaving `with cls() as p:` for an instance whose class has no `__del__` of its own (`object` has none): the access gives `None`, calling it raises TypeError, and the remote instance is still pooled after the block | leaving the block runs the proxy's own `__del__`, deleting the remote instance without raising | high, not executed | `Proxy.ExitAsWritten` | `Proxy.ExitDeletes` |
