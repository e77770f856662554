# wetsuit API client — a Dafny model

This project models the request pipeline of seaside's API client (`wetsuit/client.go`).
`Patch`, `Post` and `Get` each run the same steps and stop at the first error:

1. JSON-encode the body (`Patch` and `Post` only).
2. Build the request for `origin + "/api" + path`, with an `Authorization: Bearer <token>` header.
3. Dispatch it.
4. Reject any status code above 400.
5. Read the whole body and return it unmodified.

Files:

- `wrappers.dfy` (module `Wrappers`): `Option` for Go's nil, and `Result` for a foreign call's `(value, error)` pair.
- `strings.dfy` (module `Strings`): Go's `strings.Join`. The client builds both its URL and its header value with it.
- `http.dfy` (module `Http`): stand-ins for net/http.
  - A header map with `Add`.
  - A `Request` class whose header is filled in place.
  - A `Transport` class for the client's `HTTPClient` handle. It builds requests (`http.NewRequest`), performs round trips (`Do`), and logs every request it dispatches in `sent`.
  - What lies beyond the client is abstract: the datatype `Net` holds the URL verdict of `http.NewRequest` and the remote service's answer to each dispatched request. The answer depends on every request dispatched before it, so a `Post` or `Patch` may change what a later `Get` returns.
- `client.dfy` (module `Wetsuit`):
  - The pure parts: URL composition, the bearer value, status classification, body reading.
  - `Call`, one specification function for the whole pipeline. It returns the requests dispatched and the `(bytes, error)` pair.
  - The `Client` class. Its methods `NewRequest`, `Patch`, `Post` and `Get` are proved against `Call`: each method's `ensures` ties the new dispatch log and the returned pair to `Call`, and `Call`'s `ensures` state the pipeline's promises.

Errors are the datatype `Wetsuit.Error`, one constructor per step that can fail. `Message()` gives the text Go's `err.Error()` returns. A rejection's text is `"HTTP Error: " + status`, carrying the status line verbatim.

`strings.Join([]string{Origin, path}, "/api")` gives `origin + "/api" + path` and adds no separator of its own, so a path `foo` gives `<origin>/apifoo` and a path `/foo` gives `<origin>/api/foo`. The model proves this form for every path, the empty path included.

## Model

| member | source | states |
|---|---|---|
| `Strings.Join` | wetsuit/client.go:34 | strings.Join, as called here and for the header value at line 44: two elements are joined with exactly one separator between them, a + sep + b |
| `Wetsuit.Error.Message` | wetsuit/client.go:60 | err.Error(): "HTTP Error: " + the status line for a rejection; for an encoding, build, transport or read error (lines 68, 74, 79, 52), the underlying error's text unchanged |
| `Wetsuit.GetAPIURL` | wetsuit/client.go:33-35 | the URL is exactly origin + "/api" + path, for every origin and path |
| `Wetsuit.PathOfInvertsGetAPIURL` | wetsuit/client.go:33-35 | stripping origin + "/api" recovers the path, and a URL has path p exactly when GetAPIURL builds it from p |
| `Wetsuit.GetAPIURLInjective` | wetsuit/client.go:33-35 | two different paths never target the same URL under one origin |
| `Wetsuit.AuthorizationValue` | wetsuit/client.go:44 | the Authorization value is exactly "Bearer " + token, including "Bearer " for an empty token |
| `Wetsuit.BearerTokenInvertsAuthorizationValue` | wetsuit/client.go:44 | the token can be read back from the header value exactly, and only from that value |
| `Wetsuit.AuthHeader` | wetsuit/client.go:44 | a built request's header has the single key Authorization with the single value "Bearer " + token |
| `Http.HeaderAdd` | wetsuit/client.go:44 | Header.Add appends the value to its key's values and leaves every other key unchanged |
| `Http.Request.Add` | wetsuit/client.go:44 | the request's header becomes Header.Add of the old header |
| `Wetsuit.HandleRequestError` | wetsuit/client.go:58-63 | an error exactly when the status code is above 400; the error's message is "HTTP Error: " + the status line |
| `Wetsuit.RejectedStatusOfMessage` | wetsuit/client.go:60 | the rejection message carries the status line verbatim: it can be read back from the text |
| `Wetsuit.StatusBoundary` | wetsuit/client.go:59 | statuses 200 and 400 are accepted; 401 and 500 are rejected, and 500 with the status line |
| `Wetsuit.Read` | wetsuit/client.go:48-56 | a successful read returns the body unmodified; a failed read returns nil bytes and the read error |
| `Wetsuit.AfterDispatch` | wetsuit/client.go:77-86 | after dispatch: no error exactly when a response came back with status ≤ 400 and a readable body, and then the bytes are that body; otherwise nil bytes; a transport error, a rejected status and a failed read are each returned as that error (the read error with its message) |
| `Wetsuit.RejectionIgnoresBody` | wetsuit/client.go:82-84 | on a rejected status the reply does not depend on the body: nil bytes and the HTTP error |
| `Wetsuit.Outgoing` | wetsuit/client.go:37-46 | the request sent has the operation's method and body, URL origin + "/api" + path, and one Authorization value "Bearer " + token |
| `Wetsuit.Call` | wetsuit/client.go:65-129 | at most one `Do` call is made; bytes are returned exactly when no error is; an encoding failure sends nothing and returns the encoding error; a URL the library rejects sends nothing and returns the build error; otherwise exactly the Outgoing request is dispatched, and the service's answer to it, given the requests dispatched before, decides the reply |
| `Wetsuit.SuccessIsTheBodyRead` | wetsuit/client.go:82-86 | a call that returns bytes sent one request, got status ≤ 400, and returns exactly the body read |
| `Wetsuit.Client.NewClient` | wetsuit/client.go:23-31 | each argument is stored in its matching field (or → Origin, cid → ClientID, cs → ClientSecret, at → AccessToken); the fields are constants, so no method changes them |
| `Http.Transport.NewRequest` | wetsuit/client.go:40-43 | a fresh request with the given method, URL and body and an empty header, or the URL's error and no request |
| `Http.Transport.Do` | wetsuit/client.go:77 | the request is appended to the dispatch log and the service's answer to it, given the earlier log, is returned |
| `Wetsuit.Client.NewRequest` | wetsuit/client.go:37-46 | the build error and no request, or a fresh request equal to Outgoing: exactly one Authorization header |
| `Wetsuit.Client.Send` | wetsuit/client.go:77-86 | dispatches the request once and returns AfterDispatch of the service's answer given the earlier log |
| `Wetsuit.Client.Patch` | wetsuit/client.go:65-87 | the dispatch log grows by exactly Call's requests for PATCH with the encoded body, and the reply is Call's |
| `Wetsuit.Client.Post` | wetsuit/client.go:89-111 | as Patch, with POST |
| `Wetsuit.Client.Get` | wetsuit/client.go:113-129 | as Patch, with GET and no body |

## Left out

- The real HTTP exchange (URL parsing inside `http.NewRequest`, `http.Client.Do`, the network) is foreign library code and I/O. Its verdicts are the two abstract functions of `Http.Net`.
- `json.Marshal` is foreign. `Patch` and `Post` take the outcome of marshaling their body (`Result<Bytes>`), not the Go value itself.
- `ioutil.ReadAll` is foreign. A response carries the outcome of reading its whole body, so the model has no partial reads or streaming.
- Redirects are not modelled. `http.Client.Do` follows them by itself and may re-send the request to another address, and then without its `Authorization` header. `Transport.Do` stands for the whole `Do` call as one dispatch, so the "at most one" of `Call` counts `Do` calls, not requests on the wire.
- `resp.Body.Close` is not modelled: closing the body is a resource matter with no bearing on results. As written, the code closes it only on the path that reaches `read`.
- `fmt.Println(url)` in `newRequest` is a debug print to standard output with no bearing on results.
- `Header.Add` canonicalises its key. The only key used, `Authorization`, is already canonical, so the model stores keys unchanged.
- `NewClient` allocates its own `&http.Client{}`. Here the caller supplies the transport handle, because the behaviour behind it has to come from outside the model.
- Thread safety of the shared `HTTPClient` handle is not modelled: the client is used sequentially.
- config/config.go is not part of this model: environment parsing, link-time globals and credential files are I/O over libraries.
- seaside.go is not part of this model: it is command-line wiring with no logic of its own.
