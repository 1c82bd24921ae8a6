/** What every endpoint caller does with the executor's outcome: rewrap a
    non-nil error as "Error: <original>" and return the destination variable
    (its decoded value, or the zero value it was declared with) together
    with the response. */
module Endpoints {
  import opened Wrappers
  import opened Cherrygo

  const ErrorPrefix := "Error: "

  /** A caller's error is nil or starts with "Error: ". */
  predicate IsRewrapped(err: Option<string>)
  {
    err.Some? ==> |err.value| >= |ErrorPrefix| && err.value[..|ErrorPrefix|] == ErrorPrefix
  }

  /** fmt.Errorf("Error: %v", err) applied when err is not nil. */
  function Rewrap(err: Option<string>): (r: Option<string>)
    ensures r.None? <==> err.None?
    ensures IsRewrapped(r)
  {
    if err.Some? then
      assert (ErrorPrefix + err.value)[..|ErrorPrefix|] == ErrorPrefix;
      Some(ErrorPrefix + err.value)
    else None
  }

  /** The message inside a rewrapped error. */
  function Unwrap(r: Option<string>): Option<string>
  {
    if r.Some? && |r.value| >= |ErrorPrefix| && r.value[..|ErrorPrefix|] == ErrorPrefix
    then Some(r.value[|ErrorPrefix|..])
    else r
  }

  /** Rewrapping loses nothing: the original error is recovered from it. */
  lemma RewrapRoundTrip(err: Option<string>)
    ensures Unwrap(Rewrap(err)) == err
  {
    if err.Some? {
      assert (ErrorPrefix + err.value)[..|ErrorPrefix|] == ErrorPrefix;
      assert (ErrorPrefix + err.value)[|ErrorPrefix|..] == err.value;
    }
  }

  /** The three results of a caller that decodes into a variable. */
  datatype Returned<T> = Returned(value: T, response: Option<Response>, err: Option<string>)

  /** The two results of a caller that passes no destination. */
  datatype Answer = Answer(response: Option<Response>, err: Option<string>)

  /** The caller's tail: the variable holds what was decoded into it, or its
      zero value when nothing was; the response is passed on unchanged and
      the error rewrapped. */
  function Finish<T>(zero: T, out: Outcome<T>): (r: Returned<T>)
    ensures r.response == out.response
    ensures Unwrap(r.err) == out.err && (r.err.None? <==> out.err.None?)
    ensures IsRewrapped(r.err)
    ensures out.delivered.Decoded? ==> r.value == out.delivered.value
    ensures out.delivered.Untouched? ==> r.value == zero
  {
    RewrapRoundTrip(out.err);
    Returned(if out.delivered.Decoded? then out.delivered.value else zero, out.response, Rewrap(out.err))
  }

  /** The tail of a caller that passes no destination. */
  function Answered<T>(out: Outcome<T>): (r: Answer)
    ensures r.response == out.response
    ensures Unwrap(r.err) == out.err && (r.err.None? <==> out.err.None?)
    ensures IsRewrapped(r.err)
  {
    RewrapRoundTrip(out.err);
    Answer(out.response, Rewrap(out.err))
  }

  /** The response, when there is one, is the transport's answer to the
      request the client builds for this method, path and body, with its
      total-count metadata. */
  predicate AnsweredBy(c: ClientConfig, verb: Method, path: string, body: Bytes, be: Backend, response: Option<Response>)
  {
    response.Some? ==>
      var reply := be.transport(BuildRequest(c, verb, path, body));
      reply.Received? && response.value == Response(reply.status, reply.header, PopulateTotal(reply.header))
  }

  /** What a decoding caller guarantees about the request it made with this
      method, path and body: the response answers that request; a nil error
      comes with a response below 299; an error is rewrapped; without a
      response the variable keeps its zero value. */
  predicate CallerResult<T(==)>(c: ClientConfig, verb: Method, path: string, body: Bytes, be: Backend, zero: T, r: Returned<T>)
  {
    AnsweredBy(c, verb, path, body, be, r.response) &&
    (r.err.None? ==> r.response.Some? && !IsErrorStatus(r.response.value.status)) &&
    IsRewrapped(r.err) &&
    (r.response.None? ==> r.value == zero)
  }

  /** The same for a caller that passes no destination. */
  predicate CallerAnswer(c: ClientConfig, verb: Method, path: string, body: Bytes, be: Backend, r: Answer)
  {
    AnsweredBy(c, verb, path, body, be, r.response) &&
    (r.err.None? ==> r.response.Some? && !IsErrorStatus(r.response.value.status)) &&
    IsRewrapped(r.err)
  }

  lemma FinishGuarantees<T>(c: ClientConfig, call: Call<T>, be: Backend, zero: T)
    ensures CallerResult(c, call.verb, call.path, Buffered(call.body), be, zero, Finish(zero, MakeRequest(c, call, be)))
  {
  }

  lemma AnsweredGuarantees<T>(c: ClientConfig, call: Call<T>, be: Backend)
    ensures CallerAnswer(c, call.verb, call.path, Buffered(call.body), be, Answered(MakeRequest(c, call, be)))
  {
  }
}
