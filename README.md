# ob-configserver core, modelled in Dafny

ob-configserver is a registry. OceanBase proxies and observer nodes ask it where a
cluster's root service lives. This project models its sequential core:

- `RootServiceInfo`: the `Fill` normalisation of a root-service record. Legacy
  region name/id and newer cluster name/id are reconciled, and the cluster side wins.
- `ObProxyConfig`: the proxy bootstrap configuration. It covers the fixed URL
  formats, the default meta database, and the version. The version is the lower-case
  hex of an MD5 digest over JSON encodings concatenated in a fixed order, followed
  by the binary URL as plain text.
- `ObProxyHandler`: the two proxy-config handlers. They parse `VersionOnly`,
  deduplicate cluster names from storage through a map, and build one URL per name.
  They then answer with either the version only or the full configuration.
- `Response`: the answer envelope and its six constructors.
- `Handler`: the action router from (HTTP method, `Action`) to an operation. It also
  covers the wrapper that stamps trace id, cost and server, then picks the written status.
- `HttpServer`: the drain/shutdown state machine. This is a stopping flag plus an
  `int32` session counter, the admission middleware, `Shutdown`, and the `Run` retry loop.
- `Logger`: the caller prettyfier of the log formatter.
- `Common` and `Codec` are shared pieces:
  - Go error wrapping;
  - `int32` wrap-around;
  - decimal formatting and parsing;
  - hex encoding and decoding;
  - a JSON value type;
  - the MD5 digest and the JSON marshaller, passed as function parameters (`Codecs`).

The handlers pass the cluster list to the hash in Go's map iteration order
(server/obproxy_handler.go:92-95 and 128-132). So with two or more distinct clusters,
two calls over the same stored data may publish different versions. The model lets
the handlers emit any permutation of the distinct names. `NameListsArePermutations`
proves that any two such lists are permutations of each other.
`NameOrderReachesHashInput` shows that with two distinct names both orders are
admissible and give different JSON arrays to hash.

## Model

| member | source | states |
|---|---|---|
| RootServiceInfo.Filled | model/ob_rootservice_info.go:36-50 | a non-empty cluster name overwrites the region name; otherwise a non-empty region name fills the cluster name; a positive cluster id overwrites the region id, otherwise a positive region id fills the cluster id; with neither set the fields stay; server lists, type and timestamp never change |
| RootServiceInfo.FilledCoherent | model/ob_rootservice_info.go:36-50 | after `Fill` the name pair agrees whenever either name is set and the id pair agrees whenever either id is positive; a record already coherent is left as it is |
| RootServiceInfo.FilledIdempotent | model/ob_rootservice_info.go:36-50 | filling twice is filling once |
| RootServiceInfo.ObRootServiceInfo.Fill | model/ob_rootservice_info.go:36-50 | updates the record's fields in place to exactly `Filled` of their old values |
| RootServiceInfo.FillScenarios | model/ob_rootservice_info_test.go:29-47 | cluster id 1 propagates to the region id, and region name "helloworld" propagates to the cluster name |
| ObProxyConfig.AtService | model/obproxy_config.go:29-31 | every fixed URL is the service address followed by its fixed path |
| ObProxyConfig.AtServiceInjective | model/obproxy_config.go:29 | two URLs with the same path are equal exactly when their service addresses are |
| ObProxyConfig.NewDefaultMetaDatabaseInfo | model/obproxy_config.go:66-73 | database, user and password are all "***"; the config URL is the service address followed by the fixed root-service query for region obdv1 |
| ObProxyConfig.NewObProxyConfigVersionOnly | model/obproxy_config.go:75-79 | carries the given version unchanged |
| ObProxyConfig.MetaDatabaseJson | model/obproxy_config.go:54-59 | the metadata database marshals to an object with the fields "DataBase", "MetaDataBase", "Password" and "User" in that order, each holding its struct field |
| ObProxyConfig.RootServiceInfoUrlJson | model/obproxy_config.go:61-64 | a cluster URL marshals to an object whose "ObRegion" field holds the cluster name and whose "ObRootServiceInfoUrl" field holds the URL |
| ObProxyConfig.UrlListJson | model/obproxy_config.go:61-64 | the JSON of the URL list is an array with one object per entry, in order |
| ObProxyConfig.StringListJson | model/obproxy_config.go:112 | the JSON of the name list is an array of the names as strings, in order |
| ObProxyConfig.ConfigHashInput | model/obproxy_config.go:92 | the hash input is the URL-list JSON, then the meta JSON, then the binary URL, each exactly in its place |
| ObProxyConfig.TemplateHashInput | model/obproxy_config.go:129 | the hash input is names JSON, template V1 JSON, template V2 JSON, meta JSON and binary URL, each exactly in its place |
| ObProxyConfig.NewObProxyConfig | model/obproxy_config.go:81-102 | a meta encoding failure is reported wrapped with "encode obproxy metadb" before the list is encoded; a list encoding failure is wrapped with "encode config urls"; on success the binary URL, meta database and the caller's list are returned and the version is the MD5 hex of the hash input |
| ObProxyConfig.NewObProxyConfigWithTemplate | model/obproxy_config.go:104-141 | the four encodings fail in source order, each wrapped with its own context; on success both templates keep their placeholders literally, the names are the caller's list and the version is the MD5 hex of the five-part hash input |
| ObProxyConfig.VersionsAreMd5Hex | model/obproxy_config.go:88-132 | every successful version is 32 lower-case hex characters |
| ObProxyConfig.ConfigVersionsAgreeIffDigestsAgree | model/obproxy_config.go:92-95 | two configurations carry the same version exactly when the digests of their hash inputs are equal |
| ObProxyConfig.BinUrlIdentifiesService | model/obproxy_config.go:81-105 | both constructors build the same binary URL exactly when they are given the same service address |
| Codec.HexDigit | model/obproxy_config.go:95 | each nibble becomes one lower-case hex character |
| Codec.HexValue | model/obproxy_config.go:95 | reads a lower-case hex character back to the nibble it encodes |
| Codec.HexEncode | model/obproxy_config.go:95 | two lower-case hex characters per byte |
| Codec.HexDecode | model/obproxy_config.go:95 | a well-formed hex string decodes to half as many bytes |
| Codec.HexRoundTrip | model/obproxy_config.go:95 | decoding the encoding gives back the bytes |
| Codec.HexEncodeInjective | model/obproxy_config.go:95 | two byte strings have the same hex exactly when they are equal |
| Codec.Md5Hex | model/obproxy_config.go:93-95 | the version of a string is 32 lower-case hex characters |
| Codec.Md5HexEqualIffSameDigest | model/obproxy_config.go:93-95 | two strings get the same version exactly when their digests are equal |
| Common.Wrap | model/obproxy_config.go:86 | a wrapped error reads context, ": ", then the cause |
| Common.Wrap32 | server/http_server.go:127-144 | `int32` arithmetic: identity in range, congruent modulo 2^32 otherwise |
| Common.IncrDecrRestores | server/http_server.go:133-144 | one increment followed by one decrement restores any `int32` count, even at the wrap-around edge |
| Common.NatToString | logger/logger.go:56 | decimal digits with no leading zero |
| Common.IntToString | logger/logger.go:56 | a leading '-' for negatives, digits otherwise |
| Common.NatToStringRoundTrip | logger/logger.go:56 | parsing the decimal text gives back the number |
| Common.IntToStringRoundTrip | logger/logger.go:56 | the same for negative numbers |
| ObProxyHandler.ParseBool | server/obproxy_handler.go:65 | true exactly for 1, t, T, TRUE, true, True; false exactly for 0, f, F, FALSE, false, False; any other text fails with the quoted invalid-syntax message |
| ObProxyHandler.IsVersionOnly | server/obproxy_handler.go:60-68 | an absent parameter is false without error; a present one is exactly what boolean parsing makes of it |
| ObProxyHandler.VersionOnlyScenarios | server/obproxy_handler_test.go:32-63 | "true" gives true, "abc" gives an error, absent gives false |
| ObProxyHandler.ClusterUrl | server/obproxy_handler.go:34-88 | a cluster's lookup URL is the service address, the fixed root-service query, then the cluster name, which reads back from its end |
| ObProxyHandler.UrlNames | server/obproxy_handler.go:86-87 | the names of a URL list, position by position |
| ObProxyHandler.DistinctListSize | server/obproxy_handler.go:124-130 | a list without duplicates has as many elements as its set of names |
| ObProxyHandler.DistinctMultiplicity | server/obproxy_handler.go:124-130 | in a list without duplicates every name occurs once or not at all |
| ObProxyHandler.NameListsArePermutations | server/obproxy_handler.go:124-130 | two duplicate-free lists of the stored cluster names are permutations of each other and as long as the number of distinct names |
| ObProxyHandler.NameOrderReachesHashInput | server/obproxy_handler.go:124-132 | with two distinct stored names both orders are admissible name lists, and their JSON arrays differ |
| ObProxyHandler.ConfigResponse | server/obproxy_handler.go:95-104 | a build failure is a 500 wrapped with "generate obproxy config"; a success is a 200 whose payload is the version alone when the flag is set and the whole configuration otherwise |
| ObProxyHandler.TemplateResponse | server/obproxy_handler.go:132-142 | a build failure is a 500 wrapped with "generate obproxy config with template"; a success is a 200 whose payload is the version alone when the flag is set and the whole templated configuration otherwise |
| ObProxyHandler.GetObProxyConfig | server/obproxy_handler.go:70-106 | a bad `VersionOnly` answers 400 before storage is read; a storage failure answers 500 "query ob clusters"; otherwise the answer is built from some list holding exactly one entry per distinct stored name with the URL of that name, and is the version only or the full configuration as the flag says |
| ObProxyHandler.GetObProxyConfigWithTemplate | server/obproxy_handler.go:108-144 | the same error order; otherwise the answer is built from some duplicate-free list of exactly the distinct stored names |
| Response.NewSuccessResponse | server/response.go:38-45 | code 200, message "successful", success flag set, the given payload, nothing stamped |
| Response.NewBadRequestResponse | server/response.go:47-53 | code 400, message "bad request: " then the error, not successful, no payload |
| Response.NewIllegalArgumentResponse | server/response.go:55-61 | code 400, message "illegal argument: " then the error, not successful, no payload |
| Response.NewNotFoundResponse | server/response.go:63-69 | code 404, message "resource not found: " then the error |
| Response.NewNotImplementedResponse | server/response.go:71-77 | code 501, message "request not implemented: " then the error |
| Response.NewErrorResponse | server/response.go:79-85 | code 500, message "got internal error: " then the error |
| Response.KindOfMake | server/response.go:38-85 | every constructor's envelope reveals which constructor made it, including the two 400 kinds; the success flag is set exactly when the code is 200; trace id, server and cost are left empty |
| Handler.ActionOf | server/handler.go:79-123 | the `Action` parameter, or the empty string when it is absent |
| Handler.GetHandler | server/handler.go:77-98 | exactly the four GET actions reach an operation, each the one it names; GET never reaches the writing operations |
| Handler.PostHandler | server/handler.go:100-119 | exactly the three POST actions reach an operation, each the one it names; POST never reaches the region-info read, the root-service read or deletion |
| Handler.DeleteHandler | server/handler.go:121-132 | only "ObRootServiceInfo" reaches an operation, and that operation is deletion |
| Handler.Route | server/handler.go:77-132 | routing agrees with the table of eight (method, action) pairs, and every other pair, empty, unknown or differently cased, goes to the invalid action |
| Handler.MethodRestrictions | server/handler.go:100-132 | region info is reachable by GET only, deletion by DELETE only, and DELETE accepts exactly "ObRootServiceInfo" |
| Handler.InvalidActionResponse | server/handler.go:72-75 | a 400 answer reading "illegal argument: invalid action", not successful, no payload |
| Handler.Stamped | server/handler.go:57-59 | stamping sets trace id, cost and server and leaves code, message, success flag, payload and kind unchanged |
| Handler.HandlerFunctionWrapper | server/handler.go:49-70 | the operation's answer is stamped with trace id, cost and server; it is written under its own code when it serialises, and otherwise a 500 "serialize response" envelope is written |
| Handler.Serve | server/handler.go:77-132 | a request is answered by the routed operation, or by the invalid-action answer, under the answer's own code; when it cannot be serialised, a 500 "serialize response" envelope is written instead |
| HttpServer.Counter.Incr | server/http_server.go:133-137 | the count goes up by one in `int32` arithmetic |
| HttpServer.Counter.Decr | server/http_server.go:140-144 | the count goes down by one in `int32` arithmetic |
| HttpServer.CounterScenario | server/http_server_test.go:30-45 | counts 0, then 1, then 0 |
| HttpServer.ShutdownFailedMessage | server/http_server.go:100 | the refusal starts with "server shutdown failed" |
| HttpServer.ShutdownFailedMessageNamesCount | server/http_server.go:100 | the session count reads back from between the refusal's fixed prefix and suffix |
| HttpServer.HttpServer.Shutdown | server/http_server.go:96-103 | always sets stopping; with requests in flight it fails with the count in its message and does not close; otherwise it closes and reports what closing reported |
| HttpServer.HttpServer.CounterPreHandler | server/http_server.go:106-116 | while stopping, a 503 "server is shutdowning now." rejection with the count untouched; otherwise admission with the count one higher |
| HttpServer.HttpServer.CounterPostHandler | server/http_server.go:119-122 | the count one lower after the handler |
| HttpServer.HttpServer.HandleRequest | server/http_server.go:106-122 | a request, admitted or rejected, leaves the count as it found it; it is admitted exactly when not stopping |
| HttpServer.Drain | server/http_server.go:77-91 | the retry loop from a given round never takes more attempts than the schedule gives; a stop happens on an attempt whose close reported no error, with no request in flight, and the count at the stop is the initial count less the requests that finished in the earlier rounds; a run that never stops uses every round and ends with the requests that finished counted out |
| HttpServer.DrainStopsOnlyWhenIdle | server/http_server.go:77-103 | when requests finish only while in flight, the loop stops only with the count exactly zero |
| HttpServer.DrainCompletes | server/http_server.go:77-91 | the loop stops at its first chance: if by some round every request in flight has finished and that round's close succeeds, the loop has stopped at that round or an earlier one |
| HttpServer.HttpServer.FinishRequests | server/http_server.go:119-122 | requests finishing during the sleep lower the count by exactly their number, each through the post-handler |
| HttpServer.HttpServer.Run | server/http_server.go:77-91 | the loop's outcome, attempts and remaining count are those of `Drain` on the schedule from round 0, a stop means the server is closed, and any attempt leaves the server stopping |
| HttpServer.ShutdownScenario | server/http_server_test.go:71-91 | with one request in flight the count is 1 and shutdown fails; after it ends the count is 0 and shutdown succeeds |
| Logger.CountSplit | logger/logger.go:44-52 | counting a character over a split string adds up |
| Logger.ShortFileNameUnique | logger/logger.go:44-52 | the described file part is unique, so the loop's choice is the only one |
| Logger.LastIndex | logger/logger.go:55 | the index of the last occurrence, or -1, with no occurrence after it |
| Logger.NoOccurrence | logger/logger.go:55-56 | a string with no occurrence of a character counts none |
| Logger.CallerPrettyfier | logger/logger.go:40-57 | the function part is the text after the last '.' (the whole name when there is none) and holds no '.'; the file part is the path after the second-to-last '/' past index 0, or the whole path when there are fewer than two, and the location is the file part, ":", and the line in decimal |
| Logger.LocationEndsWithLine | logger/logger.go:56 | the line number reads back from the end of the location |

## Left out

- The root-service GET, POST and DELETE handlers and the IDC region handler are not part of this model. `Handler.Serve` takes the operations it routes to as a parameter.
- Storage (the `ent` cluster query) is a parameter of the handlers: either a list of cluster records or a failure.
- MD5 and `json.Marshal` are function parameters (`Codec.Codecs`). Digest internals and the exact JSON text are not modelled. The hex encoding of the digest is.
- `ObProxyHandler.ParseBool`: the quoting of the input in the error text does not escape special characters as Go's `strconv.Quote` does.
- The service address, the server identity (local IP lookup), the trace id and the elapsed time are parameters. Clocks, randomness and the network are outside the model.
- The mutex, the atomic loads and stores, `sync.Once` handler construction and the serving goroutine are left out. Counter and flag are sequential state.
- `HttpServer.HttpServer.HandleRequest`: a handler that panics skips the post-handler's decrement. Panics are not modelled.
- `HttpServer.HttpServer.Run`: modelled from the moment its context is cancelled, over a finite schedule of attempts. The unbounded retry and the 100 ms sleep are represented by the schedule. The listener setup before the loop is left out.
- `Handler.HandlerFunctionWrapper`: the answer is a value updated field by field, not a shared pointer. Writing to the gin context is the returned `Written` value, and logging is left out.
- `InitLogger`, the rest of the log formatter, the listeners, trace headers and the command line are left out, being I/O and configuration.
- Go's map iteration order is arbitrary. The handlers pick the next name nondeterministically, so the model fixes no order.
