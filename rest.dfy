/** The dispatch core of package rest (rest.go): a resource is a value that
    may implement any of four handler interfaces, and the HTTP handler made
    for it picks the one named by the request method, calls it, writes its
    status code and encodes its payload as JSON into the response. */
module Rest {
  import opened Wrappers
  import Json

  /** Parsed form and query values (Go's url.Values). */
  type Values = map<string, seq<string>>

  /** What a handler returns: a status code and a payload to encode. */
  datatype Reply = Reply(code: int, data: Json.Value)

  type Handler = Values -> Reply

  /** The four request methods the package knows. */
  datatype Verb = Get | Post | Put | Delete

  const GET: string := "GET"
  const POST: string := "POST"
  const PUT: string := "PUT"
  const DELETE: string := "DELETE"

  function MethodName(v: Verb): string {
    match v
    case Get => GET
    case Post => POST
    case Put => PUT
    case Delete => DELETE
  }

  /** The verb a request method string names, if any. */
  function VerbOf(requestMethod: string): (r: Option<Verb>)
    ensures forall v :: r == Some(v) <==> MethodName(v) == requestMethod
  {
    if requestMethod == GET then Some(Get)
    else if requestMethod == POST then Some(Post)
    else if requestMethod == PUT then Some(Put)
    else if requestMethod == DELETE then Some(Delete)
    else None
  }

  /** A resource: which of the interfaces getter, poster, putter and deleter
      it implements, and the method it implements each one with. */
  datatype Resource = Resource(
    get: Option<Handler>,
    post: Option<Handler>,
    put: Option<Handler>,
    delete: Option<Handler>)

  /** The handler `r` offers for `v`, None when `r` lacks that interface. */
  function Capability(r: Resource, v: Verb): Option<Handler> {
    match v
    case Get => r.get
    case Post => r.post
    case Put => r.put
    case Delete => r.delete
  }

  // BaseResource: every method answers 405 with an empty string payload.

  function BaseGet(values: Values): Reply { Reply(405, Json.Str("")) }
  function BasePost(values: Values): Reply { Reply(405, Json.Str("")) }
  function BasePut(values: Values): Reply { Reply(405, Json.Str("")) }
  function BaseDelete(values: Values): Reply { Reply(405, Json.Str("")) }

  const BaseResource: Resource :=
    Resource(Some(BaseGet), Some(BasePost), Some(BasePut), Some(BaseDelete))

  /** A struct that embeds BaseResource: the methods it declares itself
      shadow the promoted ones, so it implements all four interfaces. */
  function Embedding(own: Resource): (r: Resource)
    ensures forall v :: Capability(r, v).Some?
    ensures forall v :: Capability(own, v).Some? ==> Capability(r, v) == Capability(own, v)
    ensures forall v :: Capability(own, v).None? ==> Capability(r, v) == Capability(BaseResource, v)
  {
    Resource(
      if own.get.Some? then own.get else BaseResource.get,
      if own.post.Some? then own.post else BaseResource.post,
      if own.put.Some? then own.put else BaseResource.put,
      if own.delete.Some? then own.delete else BaseResource.delete)
  }

  /** The encoder the dispatcher hands payloads to: the text it writes, or
      None when it reports an error. */
  type Encoder = Json.Value -> Option<string>

  /** One call of a handler, with the values it was given. */
  datatype Call = Call(verb: Verb, values: Values)

  /** Everything a dispatch does to the outside world, in order: the codes
      passed to WriteHeader, the bytes written to the body and the handler
      calls made. */
  datatype Transcript = Transcript(headers: seq<int>, body: string, calls: seq<Call>)

  /** The verb whose handler runs for `requestMethod` on `r`, if any. */
  function Selected(r: Resource, requestMethod: string): (s: Option<Verb>)
    ensures s.Some? <==> VerbOf(requestMethod).Some? && Capability(r, VerbOf(requestMethod).value).Some?
    ensures s.Some? ==> MethodName(s.value) == requestMethod
  {
    match VerbOf(requestMethod)
    case Some(v) => if Capability(r, v).Some? then Some(v) else None
    case None => None
  }

  /** The transcript of one request, stated by cases on the verb selected
      and the outcome of encoding. */
  function Dispatch(r: Resource, encode: Encoder, requestMethod: string, values: Values): Transcript {
    match Selected(r, requestMethod)
    case None => Transcript([405], "", [])
    case Some(v) =>
      var reply := Capability(r, v).value(values);
      match encode(reply.data)
      case None => Transcript([reply.code, 500], "", [Call(v, values)])
      case Some(text) => Transcript([reply.code], text, [Call(v, values)])
  }

  /** The response sink a request is served into (an http.ResponseWriter),
      with a log of the handler calls made while serving it. */
  class ResponseWriter {
    var headers: seq<int>   // every code passed to WriteHeader, in order
    var body: string        // every byte passed to Write, in order
    var calls: seq<Call>    // every handler call made for this request

    constructor ()
      ensures headers == [] && body == [] && calls == []
    {
      headers, body, calls := [], [], [];
    }

    method WriteHeader(code: int)
      modifies this
      ensures headers == old(headers) + [code]
      ensures body == old(body) && calls == old(calls)
    {
      headers := headers + [code];
    }

    method Write(bytes: string)
      modifies this
      ensures body == old(body) + bytes
      ensures headers == old(headers) && calls == old(calls)
    {
      body := body + bytes;
    }

    /** Calls handler `h` for verb `v`, and records the call. */
    method Invoke(v: Verb, h: Handler, values: Values) returns (reply: Reply)
      modifies this
      ensures reply == h(values)
      ensures calls == old(calls) + [Call(v, values)]
      ensures headers == old(headers) && body == old(body)
    {
      reply := h(values);
      calls := calls + [Call(v, values)];
    }

    /** Everything written and called so far, as one transcript. */
    function Observed(): Transcript
      reads this
    {
      Transcript(headers, body, calls)
    }
  }

  /** API.Abort: writes `statusCode` as the response status. */
  method Abort(rw: ResponseWriter, statusCode: int)
    modifies rw
    ensures rw.headers == old(rw.headers) + [statusCode]
    ensures rw.body == old(rw.body) && rw.calls == old(rw.calls)
  {
    rw.WriteHeader(statusCode);
  }

  /** `json.NewEncoder(rw).Encode(data)`: on success the text is written to
      the body; on failure nothing is written. Returns whether it failed. */
  method EncodeInto(rw: ResponseWriter, encode: Encoder, data: Json.Value) returns (failed: bool)
    modifies rw
    ensures failed <==> encode(data).None?
    ensures rw.body == old(rw.body) + (if failed then "" else encode(data).value)
    ensures rw.headers == old(rw.headers) && rw.calls == old(rw.calls)
  {
    match encode(data)
    case None =>
      failed := true;
    case Some(text) =>
      rw.Write(text);
      failed := false;
  }

  /** The capability checks of requestHandler, in their order: the first
      interface the resource implements whose verb the method names has its
      handler called; None when there is none. */
  method CallHandler(resource: Resource, rw: ResponseWriter, requestMethod: string, values: Values)
    returns (reply: Option<Reply>)
    modifies rw
    ensures reply.Some? <==> Selected(resource, requestMethod).Some?
    ensures reply.Some? ==> reply.value == Capability(resource, Selected(resource, requestMethod).value).value(values)
    ensures rw.calls == old(rw.calls) +
      (if reply.Some? then [Call(Selected(resource, requestMethod).value, values)] else [])
    ensures rw.headers == old(rw.headers) && rw.body == old(rw.body)
  {
    if resource.get.Some? && requestMethod == GET {
      var r := rw.Invoke(Get, resource.get.value, values);
      reply := Some(r);
    } else if resource.post.Some? && requestMethod == POST {
      var r := rw.Invoke(Post, resource.post.value, values);
      reply := Some(r);
    } else if resource.put.Some? && requestMethod == PUT {
      var r := rw.Invoke(Put, resource.put.value, values);
      reply := Some(r);
    } else if resource.delete.Some? && requestMethod == DELETE {
      var r := rw.Invoke(Delete, resource.delete.value, values);
      reply := Some(r);
    } else {
      reply := None;
    }
  }

  /** The function requestHandler returns for `resource`, applied to one
      request with method `requestMethod` and parsed values `values`. */
  method HandleRequest(resource: Resource, encode: Encoder, rw: ResponseWriter, requestMethod: string, values: Values)
    modifies rw
    ensures rw.headers == old(rw.headers) + Dispatch(resource, encode, requestMethod, values).headers
    ensures rw.body == old(rw.body) + Dispatch(resource, encode, requestMethod, values).body
    ensures rw.calls == old(rw.calls) + Dispatch(resource, encode, requestMethod, values).calls
  {
    var reply := CallHandler(resource, rw, requestMethod, values);
    if reply.None? {
      Abort(rw, 405);
      return;
    }
    var code, data := reply.value.code, reply.value.data;

    rw.WriteHeader(code);
    var failed := EncodeInto(rw, encode, data);
    if failed {
      Abort(rw, 500);
      return;
    }
  }

  /** The transcript when the payload is encoded before any status is
      written, so that a failed encoding is answered with 500 alone. */
  function DispatchBuffered(r: Resource, encode: Encoder, requestMethod: string, values: Values): Transcript {
    match Selected(r, requestMethod)
    case None => Transcript([405], "", [])
    case Some(v) =>
      var reply := Capability(r, v).value(values);
      match encode(reply.data)
      case None => Transcript([500], "", [Call(v, values)])
      case Some(text) => Transcript([reply.code], text, [Call(v, values)])
  }

  /** HandleRequest with the payload encoded into a buffer first: the
      status is written only once the outcome of encoding is known. */
  method HandleRequestBuffered(resource: Resource, encode: Encoder, rw: ResponseWriter, requestMethod: string, values: Values)
    modifies rw
    ensures rw.headers == old(rw.headers) + DispatchBuffered(resource, encode, requestMethod, values).headers
    ensures rw.body == old(rw.body) + DispatchBuffered(resource, encode, requestMethod, values).body
    ensures rw.calls == old(rw.calls) + DispatchBuffered(resource, encode, requestMethod, values).calls
  {
    var reply := CallHandler(resource, rw, requestMethod, values);
    if reply.None? {
      Abort(rw, 405);
      return;
    }
    var code, data := reply.value.code, reply.value.data;

    var buffered := encode(data);
    if buffered.None? {
      Abort(rw, 500);
      return;
    }
    rw.WriteHeader(code);
    rw.Write(buffered.value);
  }
}
