/**
 * The pluggable transport as the test suite's mock implements it: every
 * invocation is recorded, and every invocation answers HTTP 200 with the
 * current canned body, which `setResponse` replaces.
 *
 * Besides the canned body, the model keeps a queue of one-shot replies that
 * are answered, in order, before the canned body. An empty queue is exactly
 * the mock; a queue lets a listing see a different page on every call.
 */
module Transport {
  import opened Js
  import opened Envelope

  /**
   * `MockTransportCall`: the URL and the JSON body of one invocation. The
   * optional headers and abort signal are not modelled.
   */
  datatype Call = Call(url: string, body: Request)

  /** The body the mock answers with when created without one: `{ success: true, data: [] }`. */
  const DefaultResponse: Response := Succeeded([])

  /** The HTTP status every mock invocation reports. */
  const OkStatus := 200

  /** The queue of one-shot replies after one invocation. */
  function Rest(script: seq<Response>): (r: seq<Response>)
    ensures |script| > 0 ==> r == script[1..]
    ensures |script| == 0 ==> r == []
  {
    if script == [] then [] else script[1..]
  }

  class MockTransport {
    /** Every invocation so far, oldest first. */
    var calls: seq<Call>
    /** One-shot replies still to come, answered before `response`. */
    var script: seq<Response>
    /** The canned body (`response` in the mock's closure). */
    var response: Response

    /** `createMockTransport(mockResponse?)`: an object body is always truthy, so only absence falls back. */
    constructor (mockResponse: Option<Response>)
      ensures calls == [] && script == []
      ensures response == if mockResponse.Some? then mockResponse.value else DefaultResponse
    {
      calls := [];
      script := [];
      response := if mockResponse.Some? then mockResponse.value else DefaultResponse;
    }

    /** The body the next invocation answers with. */
    function NextReply(): Response
      reads this
    {
      if script != [] then script[0] else response
    }

    /** One invocation of the transport function. */
    method Invoke(args: Call) returns (status: int, data: Response)
      modifies this
      ensures InvokedOnce(this, args, data)
      ensures status == OkStatus
    {
      calls := calls + [args];
      data := NextReply();
      status := OkStatus;
      script := Rest(script);
    }

    /** `setResponse(newResponse)`: later invocations answer `newResponse`; the record is untouched. */
    method SetResponse(newResponse: Response)
      modifies this
      ensures response == newResponse
      ensures calls == old(calls) && script == old(script)
    {
      response := newResponse;
    }

    /** Queues one-shot replies behind those already queued. */
    method QueueReplies(replies: seq<Response>)
      modifies this
      ensures script == old(script) + replies
      ensures calls == old(calls) && response == old(response)
    {
      script := script + replies;
    }
  }

  /**
   * Exactly one invocation with `args` happened: it was appended to the record,
   * it answered what was next in line, and it consumed at most one queued reply.
   */
  twostate predicate InvokedOnce(t: MockTransport, args: Call, reply: Response)
    reads t
  {
    && t.calls == old(t.calls) + [args]
    && reply == old(t.NextReply())
    && t.script == Rest(old(t.script))
    && t.response == old(t.response)
  }

  /**
   * `ClientContext` as a service's `attach` receives it: the transport the
   * client was created with, its base URL and its credential.
   */
  datatype ClientContext = ClientContext(transport: MockTransport, baseUrl: string, apiKey: Option<string>)
}
