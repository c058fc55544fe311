# rest: capability-based request dispatch, modelled in Dafny

Package `rest` (rest.go) turns plain Go values, called resources, into JSON
HTTP endpoints. A resource may implement any of four one-method
interfaces: `getter`, `poster`, `putter` and `deleter`. The HTTP handler that
`API.requestHandler` builds for a resource does three things for each
request:

1. It checks the four interfaces in a fixed order. The first one the
   resource implements whose verb equals the request method has its handler
   called, once, with the parsed form values.
2. If none applies, it writes status 405 and stops.
3. Otherwise it writes the handler's status code and encodes the handler's
   payload as JSON into the body. If encoding fails it calls `Abort(rw, 500)`,
   which is a second `WriteHeader`.

`BaseResource` implements all four handlers. Each answers `(405, "")`. A
resource embeds it to opt into only the verbs it declares itself.

The model has five files:

- `wrappers.dfy`: module `Wrappers`, the `Option` type.
- `json.dfy`: module `Json`, the part of `encoding/json` the dispatcher
  relies on. It is a payload datatype plus what `Encoder.Encode` writes for
  it: the JSON text and a newline, with HTML-sensitive characters escaped as
  `NewEncoder` does. Encoding fails, and writes nothing, exactly when some
  part of the payload has no JSON form.
- `rest.dfy`: module `Rest`, the dispatcher itself.
  - A `Resource` is a record of four optional handlers. A present handler
    stands for "implements the interface".
  - `ResponseWriter` is a class that logs every `WriteHeader` code, the
    body bytes and every handler call, in order.
  - `HandleRequest` is the dispatch closure, written as a method over that
    class. It is proved to append exactly the transcript the specification
    function `Dispatch` gives.
  - The encoder is a parameter: the dispatcher's properties hold for any
    encoder.
- `rest_properties.dfy`: module `RestProperties`, the dispatcher's
  promises stated over `Dispatch`.
- `rest_example.dfy`: module `RestExample`, the package's documented
  `UserList` example.

Three consequences of the code are easy to miss:

- `Encoder.Encode` (rest.go:134) appends a newline. So the body of the
  documented run (rest.go:50-52) is `[{"Name":"joe"},{"Name":"sally"}]`
  followed by `\n`.
- A `BaseResource` handler's `(405, "")` (rest.go:87-101) goes through the
  normal path, so its 405 comes with the body `""` and a newline. A request
  no handler matches gets a 405 with no body at all (rest.go:127-129).
- When encoding fails, the handler's code is written first and 500 second
  (rest.go:133-135). The model keeps this order. See Findings.

## Model

| member | source | states |
|---|---|---|
| `Rest.VerbOf` | rest.go:63-68 | a method string names verb `v` exactly when it equals that verb's constant (`GET`, `POST`, `PUT` or `DELETE`) |
| `Rest.Embedding` | rest.go:85-101 | a struct embedding `BaseResource` implements all four interfaces; the handlers it declares itself win, the others are `BaseResource`'s |
| `Rest.Selected` | rest.go:119-127 | a verb is selected exactly when the method names it and the resource implements it; the selected verb's name equals the method |
| `Rest.Abort` | rest.go:105-107 | writes the given status code as one more header and changes nothing else |
| `Rest.EncodeInto` | rest.go:132-134 | fails exactly when the encoder reports an error; on success appends the encoding to the body, on failure writes nothing |
| `Rest.CallHandler` | rest.go:119-130 | runs the four capability checks in order; calls the selected verb's handler once, with the request's values, and logs the call; calls nothing when no verb is selected |
| `Rest.HandleRequest` | rest.go:109-139 | appends to the writer's header log, body and call log exactly the transcript `Dispatch` gives for the resource, method and values |
| `Rest.HandleRequestBuffered` | rest.go:132-137 | the corrected order (encode, then write the status): appends exactly the transcript `DispatchBuffered` gives |
| `Json.Encode` | rest.go:132-134 | encoding succeeds exactly when the payload has a JSON form; its output ends in a newline |
| `Json.MarshalSucceedsIffEncodable` | rest.go:134 | the JSON text exists exactly when no part of the value is unsupported, and it is never empty |
| `Json.EscapeKeepsPlain` | rest.go:132-134 | a string is written unchanged between quotes exactly when every character of it is plain |
| `RestProperties.MatchedVerbCallsHandlerOnce` | rest.go:119-133 | if the resource implements verb `v`, a `v` request calls that handler exactly once with the values, and the first header is the handler's code |
| `RestProperties.HandlerRunsOnlyWhenCapableAndNamed` | rest.go:119-126 | at most one handler runs per request; any handler that runs belongs to an implemented interface whose verb equals the method, and gets the request's values |
| `RestProperties.NoMatchWritesOnly405` | rest.go:127-129 | a request selects no handler exactly when its transcript is the single header 405, an empty body and no call; every method outside the four verbs is such a request |
| `RestProperties.EncodeFailureWritesCodeThen500` | rest.go:132-136 | when a handler ran and its payload fails to encode, the header log is the handler's code then 500, and the body is empty |
| `RestProperties.EncodeSuccessWritesCodeAndBody` | rest.go:132-137 | when a handler ran and its payload encodes, the header log is the handler's code alone and the body is the encoding |
| `RestProperties.BaseHandlersAnswer405` | rest.go:87-101 | each of `BaseResource`'s four handlers returns `(405, "")` whatever the values |
| `RestProperties.BaseResourceAnswers405` | rest.go:85-101 | `BaseResource` answers each of the four verbs by calling its handler: status 405 and body `""` plus a newline |
| `RestProperties.EmbeddingAlwaysCallsAHandler` | rest.go:85-101 | a resource embedding `BaseResource` calls a handler for every verb; for verbs it does not declare, the first header is 405 |
| `RestProperties.BufferedWritesFinalStatusOnce` | rest.go:132-137 | the buffered dispatcher writes one header, the last one the unbuffered dispatcher writes, with the same body and calls |
| `RestProperties.EncodeFailureCommitsHandlerCode` | rest.go:132-136 | a `PUT` whose handler returns 200 with an unencodable payload writes 200 and then 500; buffered, it writes 500 only |
| `RestProperties.ServeTwice` | rest.go:110-138 | serving the same request twice into fresh writers gives identical transcripts, both equal to `Dispatch`'s |
| `RestExample.TwoUsersGet` | rest.go:17-35 | `GET` on a `UserList` of two users with plain names answers 200 with a JSON array of two `{"Name":…}` objects and a newline, after one `Get` call |
| `RestExample.ExampleGet` | rest.go:38-52 | the documented run: `GET` on the joe/sally `UserList` answers 200 and `[{"Name":"joe"},{"Name":"sally"}]` plus a newline |
| `RestExample.ExamplePost` | rest.go:119-129 | the same resource has no `Post`, so `POST` is answered with the single header 405, no body and no call |
| `RestExample.ServeUsers` | rest.go:41-52 | serving the documented `GET` through `HandleRequest` yields status 200 and the documented body |

## Left out

- `API.AddResource` (rest.go:141-143) registers the handler in net/http's process-wide route table. That is plumbing outside the dispatcher.
- `API.Start` (rest.go:145-148) formats the port and calls `http.ListenAndServe`. That is network I/O.
- `request.ParseForm()` (rest.go:116) is net/http's form and query parsing. The parsed values are an input of the model, and a parse error (which the source ignores) is not modelled.
- How net/http puts a second `WriteHeader` on the wire is not modelled. Neither is its panic on codes outside 100-999. The model records the sequence of `WriteHeader` calls only.
- A failing `rw.Write` inside `Encode` also makes `Encode` return an error. The encoder parameter covers the outcome but not a partly written body.
- Handlers are pure functions of the values. Handler side effects, such as a repository they update, and concurrent requests belong to the resource, not the dispatcher.
- The body is a sequence of characters, not the UTF-8 bytes Go writes.
- rest_example_test.go starts a server on port 8080 and makes a real HTTP request. `RestExample` covers the same run without the network.
- Json.Encode: covers null, booleans, integers, strings, arrays and structs. It leaves out floating-point numbers, maps with sorted keys, struct tags, `omitempty`, `json.Marshaler` implementations and cyclic values. Their failures are the `Unsupported` case. Escaping follows Go 1.22 and later, which write `\b` and `\f` rather than `\u0008` and `\u000c`.

## Findings

| source | as written | input that shows it | evidently intended | confidence | as-written member | corrected member |
|---|---|---|---|---|---|---|
| rest.go:132-136 | `rw.WriteHeader(code)` runs before the payload is encoded, so on an encoding error `Abort(rw, 500)` is a second `WriteHeader` after the status is already committed | a resource whose `Put` returns `(200, v)` where `v` holds a channel, served a `PUT` | a payload that cannot be encoded is answered with status 500 | medium; not executed | `Rest.HandleRequest`, shown by `RestProperties.EncodeFailureCommitsHandlerCode` | `Rest.HandleRequestBuffered`, with `RestProperties.BufferedWritesFinalStatusOnce` |

The source's order is what the package does, so `HandleRequest` keeps it and
the dispatcher's properties are stated for it. `HandleRequestBuffered`
encodes into a buffer before writing any status. It differs from
`HandleRequest` only in that its one header is the final one.
