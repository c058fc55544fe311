/** What the dispatcher of rest.go promises, stated over the transcript of
    one request (Rest.Dispatch), for every resource, request method, values
    and encoder. */
module RestProperties {
  import opened Wrappers
  import Json
  import opened Rest

  /** A request whose method names a verb the resource implements calls
      that verb's handler exactly once, with the request's values, and the
      first status written is the code the handler returned. */
  lemma MatchedVerbCallsHandlerOnce(r: Resource, encode: Encoder, v: Verb, values: Values)
    requires Capability(r, v).Some?
    ensures Dispatch(r, encode, MethodName(v), values).calls == [Call(v, values)]
    ensures |Dispatch(r, encode, MethodName(v), values).headers| >= 1
    ensures Dispatch(r, encode, MethodName(v), values).headers[0] == Capability(r, v).value(values).code
  {
  }

  /** A handler runs only for the verb the method names and only when the
      resource implements it, and at most one handler runs per request. */
  lemma HandlerRunsOnlyWhenCapableAndNamed(r: Resource, encode: Encoder, requestMethod: string, values: Values)
    ensures |Dispatch(r, encode, requestMethod, values).calls| <= 1
    ensures forall c :: c in Dispatch(r, encode, requestMethod, values).calls ==>
      MethodName(c.verb) == requestMethod && Capability(r, c.verb).Some? && c.values == values
  {
  }

  /** Exactly the requests that select no handler are answered with a
      single 405, no body and no handler call; this covers a missing
      interface and every method other than GET, POST, PUT and DELETE. */
  lemma NoMatchWritesOnly405(r: Resource, encode: Encoder, requestMethod: string, values: Values)
    ensures Selected(r, requestMethod).None? <==>
      Dispatch(r, encode, requestMethod, values) == Transcript([405], "", [])
    ensures VerbOf(requestMethod).None? ==>
      Dispatch(r, encode, requestMethod, values) == Transcript([405], "", [])
  {
  }

  /** When a handler ran and its payload cannot be encoded, the status
      log is the handler's code followed by 500 and nothing is written to
      the body. */
  lemma EncodeFailureWritesCodeThen500(r: Resource, encode: Encoder, requestMethod: string, values: Values)
    requires Selected(r, requestMethod).Some?
    requires encode(Capability(r, Selected(r, requestMethod).value).value(values).data).None?
    ensures Dispatch(r, encode, requestMethod, values).headers ==
      [Capability(r, Selected(r, requestMethod).value).value(values).code, 500]
    ensures Dispatch(r, encode, requestMethod, values).body == ""
  {
  }

  /** When a handler ran and its payload was encoded, the status log is
      the handler's code alone and the body is the encoding. */
  lemma EncodeSuccessWritesCodeAndBody(r: Resource, encode: Encoder, requestMethod: string, values: Values)
    requires Selected(r, requestMethod).Some?
    requires encode(Capability(r, Selected(r, requestMethod).value).value(values).data).Some?
    ensures Dispatch(r, encode, requestMethod, values).headers ==
      [Capability(r, Selected(r, requestMethod).value).value(values).code]
    ensures Dispatch(r, encode, requestMethod, values).body ==
      encode(Capability(r, Selected(r, requestMethod).value).value(values).data).value
  {
  }

  /** Every handler of BaseResource answers 405 with an empty string,
      whatever the values. */
  lemma BaseHandlersAnswer405(v: Verb, values: Values)
    ensures Capability(BaseResource, v).Some?
    ensures Capability(BaseResource, v).value(values) == Reply(405, Json.Str(""))
  {
  }

  /** BaseResource answers each of the four verbs by calling its handler,
      so the first status is 405; unlike a request no handler matches, the
      encoded empty string is then written as the body. */
  lemma BaseResourceAnswers405(v: Verb, values: Values)
    ensures Dispatch(BaseResource, Json.Encode, MethodName(v), values) ==
      Transcript([405], "\"\"\n", [Call(v, values)])
  {
  }

  /** A resource that embeds BaseResource always reaches a handler; for
      the verbs it does not declare itself that handler answers 405. */
  lemma EmbeddingAlwaysCallsAHandler(own: Resource, encode: Encoder, v: Verb, values: Values)
    ensures Dispatch(Embedding(own), encode, MethodName(v), values).calls == [Call(v, values)]
    ensures Capability(own, v).None? ==>
      Dispatch(Embedding(own), encode, MethodName(v), values).headers[0] == 405
  {
  }

  /** Encoding before writing the status makes the first status written
      the final one: the buffered dispatcher writes one status, the last
      one the unbuffered dispatcher writes, with the same body and calls. */
  lemma BufferedWritesFinalStatusOnce(r: Resource, encode: Encoder, requestMethod: string, values: Values)
    ensures |Dispatch(r, encode, requestMethod, values).headers| > 0
    ensures DispatchBuffered(r, encode, requestMethod, values).headers ==
      [Dispatch(r, encode, requestMethod, values).headers[|Dispatch(r, encode, requestMethod, values).headers| - 1]]
    ensures DispatchBuffered(r, encode, requestMethod, values).body == Dispatch(r, encode, requestMethod, values).body
    ensures DispatchBuffered(r, encode, requestMethod, values).calls == Dispatch(r, encode, requestMethod, values).calls
  {
  }

  /** A PUT-only resource whose handler returns 200 with a payload that has
      no JSON form: as written, the first status committed is 200 and the
      500 comes after it; buffered, the only status is 500. */
  lemma EncodeFailureCommitsHandlerCode(values: Values)
    ensures Dispatch(Resource(None, None, Some(_ => Reply(200, Json.Unsupported)), None),
                     Json.Encode, PUT, values).headers == [200, 500]
    ensures DispatchBuffered(Resource(None, None, Some(_ => Reply(200, Json.Unsupported)), None),
                             Json.Encode, PUT, values).headers == [500]
  {
  }

  /** Dispatch reads nothing but its arguments: serving the same request
      twice into fresh response writers leaves identical transcripts. */
  method ServeTwice(r: Resource, encode: Encoder, requestMethod: string, values: Values)
    returns (first: Transcript, second: Transcript)
    ensures first == second
    ensures first == Dispatch(r, encode, requestMethod, values)
  {
    var rw1 := new ResponseWriter();
    HandleRequest(r, encode, rw1, requestMethod, values);
    first := rw1.Observed();
    var rw2 := new ResponseWriter();
    HandleRequest(r, encode, rw2, requestMethod, values);
    second := rw2.Observed();
  }
}
