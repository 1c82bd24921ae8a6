# cherrygo request core in Dafny

This project models the request/response core of cherrygo, the Go client library for the Cherry Servers REST API:

- **Client construction.** `NewClientBase` fixes the API root and the library's user agent. `NewClient` rejects an empty token and runs the `ClientOpt` closures in order. `SetUserAgent` prepends a custom agent.
- **The request executor `MakeRequest`.** It does the following, in order:
  - JSON-encodes the body;
  - builds the request with the `Authorization: Bearer` and `User-Agent` headers;
  - hands the request to the transport;
  - fills the total-count metadata from `X-Total-Count`;
  - classifies the status: 299 and above is an error, whose body is unmarshalled into `{code, message}` and formatted;
  - returns early on DELETE answered with 204;
  - otherwise leaves the body unread, copies it raw, or decodes it into the destination.
- **The second classifier `checkResponseForErrors`.**
- **The endpoint callers** of storage, storages, IP addresses and IP address. They build a path, call the executor, and either rewrap the error as `Error: ...` or hand it to `log.Fatal`.

The modules are:

- `Wrappers`: `Option`/`Result`.
- `GoLib`: the standard-library behaviour the core relies on:
  - `strconv.Itoa` and `strconv.Atoi` (as `ParseInt(s, 10, 64)`, including its overflow clamping);
  - `strings.Join`;
  - `http.Header`'s `Get`/`Add`/`Set`.
- `Cherrygo`: `cherrygo.go`.
- `Endpoints`: the tail every caller shares.
- `Storage`, `Storages`, `IPAddresses`, `IPAddress`: one module per endpoint file.

`MakeRequest` is a pure function of the client's fields, a `Call` (method, path, encoded body, destination) and a `Backend`. The `Backend` supplies the HTTP transport, as a function from the request built to the reply, and `encoding/json`'s unmarshalling of the error body. The `Client` whose fields the option closures update is a class. `NewClient` is a method whose loop is proved against the fold `ApplyOptions`.

In three places the code behaves in a way that is easy to miss on a first reading; in the third it also disagrees with the library's own storages tests. The model follows the code:

- An error body that cannot be read or unmarshalled makes `MakeRequest` return a nil response and that error (`cherrygo.go:130-137`). It does not degrade to an empty error envelope. Only `checkResponseForErrors` is tolerant.
- A non-numeric `X-Total-Count` gives 0 only when `strconv.Atoi` fails with a syntax error. Atoi's fast path covers strings shorter than 19 characters (`Cherrygo.TotalOfShortNonNumeral`). For longer strings, `ParseInt` can stop at a range error first and return the 64-bit bound, for example `"99999999999999999999x"`.
- The storages endpoints format their paths from `baseProjectPath`, which `projects.go:9` declares as `"/v1/teams"`. Only the library's storages create test expects a `/v1/projects/...` path (`storages_test.go:74`). Its get, delete, attach, detach and update tests expect `/v1/storages/123` and `/v1/storages/123/attachments` (`storages_test.go:33, 107, 128, 159, 181`), and they call signatures storages.go does not have, such as `Get(123, nil)`, `Delete(123)` and `Update`. The model uses the declared constant and the declared signatures.

## Model

| member | source | states |
|---|---|---|
| GoLib.Itoa | ipaddress.go:49 | decimal rendering is non-empty and slash-free; its digits spell the value, after a '-' for negatives; no leading zero except for 0 itself |
| GoLib.ItoaInjective | storages.go:108 | different integers render differently, so `%d` path segments identify their IDs |
| GoLib.Atoi | cherrygo.go:263 | the parsed value always lies in the int64 range, and a syntax error yields 0 |
| GoLib.AtoiOfDecimal | cherrygo.go:263 | a decimal numeral parses to its signed value clamped to int64, without error exactly when it is in range |
| GoLib.AtoiOfShortNonDecimal | cherrygo.go:263 | a string shorter than 19 characters that is not a numeral parses to 0 with a syntax error |
| GoLib.AtoiItoa | cherrygo.go:263 | parsing the decimal rendering of any int64 gives it back |
| GoLib.Join | ipaddress.go:51 | joining no elements gives "", one element gives that element; otherwise the result starts with the first element and its length is the elements' lengths plus one separator per gap |
| GoLib.JoinPair | storage.go:65 | two elements join as first + sep + second |
| GoLib.JoinTriple | ipaddresses.go:67 | three elements join as first + sep + second + sep + third |
| GoLib.JoinSnoc | ipaddress.go:51 | joining one more element appends the separator and that element |
| GoLib.SplitAtFirstSlash | storages.go:108 | two slash-joined strings whose first segments are slash-free are equal only if both parts are |
| GoLib.ScanDigits | cherrygo.go:263 | the digit scan of ParseUint stays within 0..MaxUint64; a syntax error yields 0 and a range error yields MaxUint64 |
| GoLib.ParseUint | cherrygo.go:263 | ParseUint's value always lies in 0..MaxUint64 |
| GoLib.HeaderGet | cherrygo.go:262 | Get returns the first value stored under the key, and "" when the key is absent or has no values |
| GoLib.HeaderAdd | cherrygo.go:98 | Add appends a value: the key's list becomes its old list (empty when absent) plus the value, so an existing first value stays; other keys are untouched |
| GoLib.HeaderSet | cherrygo.go:99 | Set replaces every value under the key: its list becomes exactly the one value, so Get returns it; other keys are untouched |
| Cherrygo.BaseConfig | cherrygo.go:205-213 | a base client has base URL "https://api.cherryservers.com/v1/", user agent "cherry-agent-go/2.0.0", the given token and debug flag |
| Cherrygo.Client.Base | cherrygo.go:203-229 | the constructed client's fields are the base configuration |
| Cherrygo.Client.Apply | cherrygo.go:188 | calling an option sets the client's fields to what the closure makes of them and returns its error |
| Cherrygo.NewClient | cherrygo.go:176-194 | an empty token gives no client and "You must export CHERRY_AUTH_TOKEN"; otherwise the first failing option's error and no client, or a fresh client holding the options' combined effect |
| Cherrygo.SetUserAgent | cherrygo.go:253-258 | the option never fails, leaves base URL, token and debug flag alone, and sets the agent to ua + " " + the previous agent |
| Cherrygo.ApplyOptions | cherrygo.go:187-191 | when no option can fail, construction succeeds; a failure's error is one that some option returns |
| Cherrygo.ApplyOptionsAppend | cherrygo.go:187-191 | running a+b is running a and then, if it succeeded, b on its result |
| Cherrygo.FirstFailingOption | cherrygo.go:187-191 | the first option that returns an error makes construction fail with exactly that error |
| Cherrygo.AllOptionsSucceed | cherrygo.go:187-191 | when options succeed, the configuration is the last option's output |
| Cherrygo.UserAgentOptions | cherrygo.go:253-258 | SetUserAgent options change only the user agent, each prepending "ua " to the previous one |
| Cherrygo.PrefixedShape | cherrygo.go:255 | after SetUserAgent options the old user agent survives as a suffix and the last option's agent is the prefix |
| Cherrygo.CustomUserAgent | cherrygo.go:253-258 | SetUserAgent("testing/1.0") on a base client yields "testing/1.0 cherry-agent-go/2.0.0" |
| Cherrygo.RequestHeader | cherrygo.go:97-99 | the request carries exactly Authorization = "Bearer " + token and User-Agent = the client's agent |
| Cherrygo.BuildRequest | cherrygo.go:66-99 | Get of both headers gives the bearer token and the user agent; method, resolved URL and body are the call's |
| Cherrygo.PopulateTotal | cherrygo.go:260-265 | the total lies in the int64 range and is 0 when X-Total-Count is absent or empty |
| Cherrygo.TotalOfNumeral | cherrygo.go:260-265 | a numeral in X-Total-Count gives its value clamped to int64 |
| Cherrygo.TotalOfShortNonNumeral | cherrygo.go:262-263 | a short non-numeric X-Total-Count gives 0 |
| Cherrygo.TotalOfRendered | cherrygo.go:262-263 | a header holding the decimal rendering of a 64-bit count gives that count |
| Cherrygo.IsErrorStatus | cherrygo.go:120 | every status from 200 to 298 is a success, and every status of 300 or more is an error |
| Cherrygo.ApiErrorText | cherrygo.go:139 | the text is "Error response from API: " followed by the message, then " (error code: ", the decimal code and ")" |
| Cherrygo.MakeRequest | cherrygo.go:64-173 | an unencodable body sends nothing and returns its error; otherwise the request sent is the built one; response and error are never both nil; a response is the transport's reply with its total; a nil error means a status below 299; the destination is touched only on a success status other than DELETE/204, receiving the body's bytes or the decoder's value and error; which early error comes back is stated by `NilResponseExactlyOnEarlyFailure` |
| Cherrygo.NilResponseExactlyOnEarlyFailure | cherrygo.go:74-137 | the response is nil exactly when encoding, the transport, or reading/unmarshalling an error body fails, and the error returned is that failing step's own error, unchanged |
| Cherrygo.ErrorStatusKeepsResponse | cherrygo.go:120-142 | a status of 299 or above with a readable error body returns the response and "Error response from API: message (error code: code)" |
| Cherrygo.BadRequestText | cherrygo.go:139 | code 400 and message "Bad Request" format as "Error response from API: Bad Request (error code: 400)" |
| Cherrygo.DeleteNoContent | cherrygo.go:152-155 | DELETE answered by 204 returns the response with no error and leaves the destination alone |
| Cherrygo.SuccessDispatch | cherrygo.go:157-172 | on success, no destination leaves the body, a writer gets the raw bytes, a decode target gets the decoder's value and error |
| Cherrygo.CheckResponseForErrors | cherrygo.go:238-251 | nil exactly for 200..299; otherwise an envelope with the status, empty when the body fails to read or is empty, else what unmarshalling filled |
| Cherrygo.ClassifiersDisagree | cherrygo.go:238-241 | the executor and checkResponseForErrors disagree exactly on 299 and on statuses below 200 |
| Endpoints.Rewrap | storage.go:71-73 | there is an error after rewrapping exactly when there was one before, and it starts with "Error: " |
| Endpoints.RewrapRoundTrip | storage.go:71-73 | the original error is recoverable from "Error: " + error |
| Endpoints.Finish | storage.go:68-75 | the caller returns the executor's response and the rewrapped error, which starts with "Error: " and unwraps to the executor's error; it returns the decoded value, or the zero value when nothing was decoded |
| Endpoints.Answered | storage.go:95-99 | a caller without destination returns the executor's response and the rewrapped error, which starts with "Error: " and unwraps to the executor's error |
| Endpoints.FinishGuarantees | storages.go:80-91 | a decoding caller's response answers the request it built, a nil error has a status below 299, errors start with "Error: ", no response means the zero value |
| Endpoints.AnsweredGuarantees | storages.go:107-116 | the same for callers without destination |
| Storage.ProjectStoragesPath | storage.go:81 | the project's storages are "/v1/projects/{p}/storages", with the ID inserted unescaped |
| Storage.StoragePath | storage.go:65 | a storage's path is its project's storages path, a slash and the storage ID |
| Storage.AttachmentsPath | storage.go:105 | the attachments path is the storage's path followed by "/attachments" |
| Storage.PathShapes | storage.go:65 | paths are "/v1/projects/{p}/storages/{s}" and "/v1/projects/{p}/storages/{s}/attachments" |
| Storage.UnescapedIdsCollide | storage.go:93-115 | the unescaped storage ID "1/attachments" addresses the attachments of storage "1" |
| Storage.List | storage.go:64-76 | the result is exactly the shared tail (rewrapped error, response, decoded value or zero BlockStorage) of a GET on "/v1/projects/{p}/storages/{s}" with the options' query, without body, decoding into a BlockStorage |
| Storage.Create | storage.go:78-89 | the result is exactly the shared tail of a POST of the encoded request to "/v1/projects/{p}/storages", decoding into a BlockStorage; an unencodable request returns the zero value, no response and "Error: " + the encoder's error |
| Storage.Delete | storage.go:91-100 | the result is exactly the shared tail of a DELETE on "/v1/projects/{p}/storages/{s}" with the encoded request as body and no destination |
| Storage.Attach | storage.go:102-112 | the result is exactly the shared tail of a POST of the encoded request to "/v1/projects/{p}/storages/{s}/attachments", decoding into a BlockStorage |
| Storage.Detach | storage.go:114-122 | the result is exactly the shared tail of a DELETE on "/v1/projects/{p}/storages/{s}/attachments" with no body and no destination |
| Storages.ProjectStoragesPath | storages.go:69 | the project's storages are "/v1/teams/{p}/storages", the project ID in decimal |
| Storages.StoragePath | storages.go:81 | a storage's path is its project's storages path, a slash and the decimal storage ID |
| Storages.AttachmentsPath | storages.go:121 | the attachments path is the storage's path followed by "/attachments" |
| Storages.PathShapes | storages.go:108-121 | paths are "/v1/teams/{p}/storages/{s}" and "/v1/teams/{p}/storages/{s}/attachments" |
| Storages.StoragePathInjective | storages.go:108 | different (project, storage) pairs give different storage paths |
| Storages.List | storages.go:68-78 | the result is exactly the shared tail, with an empty list as the zero value, of a GET on "/v1/teams/{p}/storages" with the options' query, decoding into a list |
| Storages.Get | storages.go:80-91 | the result is exactly the shared tail of a GET on "/v1/teams/{p}/storages/{s}" with the options' query, decoding into a BlockStorage |
| Storages.Create | storages.go:93-105 | the result is exactly the shared tail of a POST of the encoded request to "/v1/teams/{p}/storages"; an unencodable request gives the zero value, no response and the rewrapped encoder error |
| Storages.Delete | storages.go:107-116 | the result is exactly the shared tail of a DELETE on "/v1/teams/{p}/storages/{s}" with the encoded request as body and no destination |
| Storages.Attach | storages.go:118-129 | the result is exactly the shared tail of a POST of the encoded request to "/v1/teams/{p}/storages/{s}/attachments", decoding into a BlockStorage |
| Storages.Detach | storages.go:131-140 | the result is exactly the shared tail of a DELETE on "/v1/teams/{p}/storages/{s}/attachments" with no body and no destination |
| IPAddresses.ListPath | ipaddresses.go:67 | the list path is "/v1/projects/{p}/ips", the ID inserted unescaped |
| IPAddresses.List | ipaddresses.go:64-78 | the result is exactly the shared tail, with an empty list as the zero value, of a GET on "/v1/projects/{p}/ips" decoding into a list |
| IPAddresses.UndecodableListKeepsPartialResult | ipaddresses.go:72-77 | a success status with an undecodable body returns what was decoded, the response and "Error: " + the decoder's error |
| IPAddress.Run | ipaddress.go:55-60 | the process exits exactly when the executor errs, logging that error; a return carries the response, a status below 299, and the decoded value or the zero value |
| IPAddress.RunGuarantees | ipaddress.go:55-60 | a call that returns was answered by the transport for the request it built, with a status below 299 |
| IPAddress.CollectionPath | ipaddress.go:68-70 | the collection path is the listing path for the project ID in decimal |
| IPAddress.ItemPath | ipaddress.go:49-51 | an address's path is the collection path, a slash and the address ID, unescaped |
| IPAddress.ItemPathShape | ipaddress.go:51 | the item path is "/v1/projects/{p}/ips/{id}" |
| IPAddress.ItemPathInjective | ipaddress.go:87 | different (project, address) pairs give different item paths |
| IPAddress.List | ipaddress.go:46-61 | the result is exactly the log.Fatal tail of a GET on "/v1/projects/{p}/ips/{id}" decoding into an address; a return carries the decoded address |
| IPAddress.Create | ipaddress.go:64-78 | the result is exactly the log.Fatal tail of a POST of the encoded request to "/v1/projects/{p}/ips"; an unencodable request exits with the encoder's error |
| IPAddress.Update | ipaddress.go:81-95 | the result is exactly the log.Fatal tail of a PUT of the encoded request to "/v1/projects/{p}/ips/{id}"; an unencodable request exits with the encoder's error |
| IPAddress.Remove | ipaddress.go:98-111 | the result is exactly the log.Fatal tail of a DELETE with the encoded request as body on "/v1/projects/{p}/ips/{request.ID}"; an unencodable request exits with the encoder's error |
| IPAddress.RemoveNoContent | ipaddress.go:106-110 | a removal answered with 204 returns the zero address and the response |

## Left out

- The network, `http.Client` and `req.Close` are not modelled. The transport is a function parameter.
- The parsing of `apiURL` and of each path (`url.Parse`), and `ResolveReference`, are not modelled. A resolved URL is kept as the pair of base URL and path.
- Cherrygo.MakeRequest: sends a request for every path. The source ignores the error of `url.Parse` (`cherrygo.go:66`). For a path that `url.Parse` rejects, the URL is nil and `ResolveReference` (`cherrygo.go:68`) dereferences it, so the call panics. Examples are a project ID holding `"50%"` or an address ID holding a control character, since the callers insert IDs unescaped.
- The `http.NewRequest` failure branch (`cherrygo.go:85-88`) is not modelled. The `Method` datatype holds five valid methods (GET, POST, PUT, PATCH, DELETE); the callers use four of them (no caller passes PATCH), and for all five that branch cannot be taken.
- Debug output is not modelled. This covers `fmt.Printf`, `httputil.DumpRequestOut`/`DumpResponse` and the `log.Printf` lines. It changes no result.
- The environment variables `CHERRY_AUTH_TOKEN` and `CHERRY_DEBUG` are not read. The token and the debug flag are parameters of `NewClient`.
- JSON encoding and decoding are not modelled. They are given as functions: the encoder's result (`Payload`), the decoder of a destination, and the unmarshaller of the error body. The `mediaType` constant is unused in the source.
- Cherrygo.CheckResponseForErrors: the unmarshaller supplies only the `errors` and `error` fields. `json.Unmarshal` (`cherrygo.go:246`) can also overwrite the untagged `Response` field, because it matches the key `"response"` case-insensitively. A body `{"response":null}` clears it, and `{"response":{"StatusCode":200}}` replaces the caller's response. The model always reports the status of the response it was given.
- `GetOptions.WithQuery` is given as a function on paths, because the options type is not part of this model.
- `IPAddresses.IPAddress` leaves out the nested `Region`, `RoutedTo`, `AssignedTo`/`TargetedTo` and `Project` records. The Go type is called `IPAddresses`; the model names one record `IPAddress`.
- The references to the other resource clients that `NewClientBase` sets (`cherrygo.go:214-226`) are not modelled. The resource files they refer to are not part of this model.
- `log.Fatal` is modelled as the `Exited` result carrying the logged error. Process termination itself is outside the model.
- Cherrygo.TotalOfShortNonNumeral: states the zero result only for values shorter than 19 characters. Longer non-numeric values are bounded to int64 by `Cherrygo.PopulateTotal` but not characterised further.
