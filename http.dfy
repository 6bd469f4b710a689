/** The part of the HTTP layer both bridges touch: the inbound request, a
    recorder standing in for express's `res`, a recorder for `next`, and the
    translation of a function's `{statusCode, headers, body}` onto `res`
    that src/serve.ts:28-34 and src/handler.ts:13-17 share. */
module Http {
  import opened Common

  /** The request fields the bridges read; query and headers are flat
      string maps and the body is the text the body parser left. */
  datatype Request = Request(
    path: string,
    httpMethod: string,
    query: map<string, string>,
    headers: map<string, string>,
    body: string)

  /** What a response recorder holds: the status, the headers set so far,
      and every body passed to `send`, in order. */
  datatype ResState = ResState(status: int, headers: map<string, string>, sent: seq<string>)

  /** A response nobody has written to yet (express starts at 200). */
  const UNTOUCHED := ResState(200, map[], [])

  /** Stand-in for express's `res`: records `status`, `setHeader` and
      `send` calls. */
  class Response {
    var status: int
    var headers: map<string, string>
    var sent: seq<string>

    function State(): ResState
      reads this
    {
      ResState(status, headers, sent)
    }

    constructor ()
      ensures State() == UNTOUCHED
    {
      status, headers, sent := 200, map[], [];
    }

    method Status(code: int)
      modifies this
      ensures State() == old(State()).(status := code)
    {
      status := code;
    }

    method SetHeader(name: string, value: string)
      modifies this
      ensures State() == old(State()).(headers := old(headers)[name := value])
    {
      headers := headers[name := value];
    }

    method Send(body: string)
      modifies this
      ensures State() == old(State()).(sent := old(sent) + [body])
    {
      sent := sent + [body];
    }
  }

  /** Stand-in for express's `next`: records every error passed on. */
  class Next {
    var forwarded: seq<Failure>

    constructor ()
      ensures forwarded == []
    {
      forwarded := [];
    }

    method Call(err: Failure)
      modifies this
      ensures forwarded == old(forwarded) + [err]
    {
      forwarded := forwarded + [err];
    }
  }

  /** The `{statusCode, headers, body}` object a function completes with. */
  datatype LambdaResponse = LambdaResponse(statusCode: int, headers: map<string, string>, body: string)

  /** The recorder state after a successful reply: the function's status,
      its headers laid over what was there, and its body sent. */
  function Reply(st: ResState, r: LambdaResponse): ResState
  {
    ResState(r.statusCode, st.headers + r.headers, st.sent + [r.body])
  }

  /** A reply copies every header of the function verbatim and touches no
      other header. */
  lemma ReplyHeaders(st: ResState, r: LambdaResponse)
    ensures forall k :: k in r.headers ==> k in Reply(st, r).headers && Reply(st, r).headers[k] == r.headers[k]
    ensures forall k :: k !in r.headers ==>
              (k in Reply(st, r).headers <==> k in st.headers) &&
              (k in st.headers ==> Reply(st, r).headers[k] == st.headers[k])
    ensures Reply(st, r).status == r.statusCode && Reply(st, r).sent == st.sent + [r.body]
  {
  }

  /** `res.status(...)`, one `res.setHeader` per key of the function's
      headers (a `for..in` loop), then `res.send(...)`. */
  method WriteReply(res: Response, r: LambdaResponse)
    modifies res
    ensures res.State() == Reply(old(res.State()), r)
  {
    res.Status(r.statusCode);
    var pending := r.headers.Keys;
    while pending != {}
      invariant pending <= r.headers.Keys
      invariant res.status == r.statusCode && res.sent == old(res.sent)
      invariant res.headers == old(res.headers) + map k | k in r.headers.Keys - pending :: r.headers[k]
      decreases pending
    {
      var key :| key in pending;
      res.SetHeader(key, r.headers[key]);
      pending := pending - {key};
    }
    assert r.headers == map k | k in r.headers.Keys - pending :: r.headers[k];
    res.Send(r.body);
  }
}
