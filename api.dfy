/** `apiHandler` of `src/api.ts`: CORS headers, the preflight short-circuit, the
    sequential middleware loop, status and body selection, and the catch block that
    renders a thrown value as one JSON error response. */
module Api {
  import opened Wrappers
  import opened Js
  import opened Exceptions

  /** A response header name: the three CORS headers the handler sets, or any other. */
  datatype Header = CorsAllowOrigin | CorsAllowHeaders | CorsAllowMethods | Other(name: string)

  /** The name a header goes by on the wire. */
  function Name(h: Header): string {
    match h
    case CorsAllowOrigin => "Access-Control-Allow-Origin"
    case CorsAllowHeaders => "Access-Control-Allow-Headers"
    case CorsAllowMethods => "Access-Control-Allow-Methods"
    case Other(name) => name
  }

  /** A response header value: the three values the handler writes, or any other text. */
  datatype HeaderValue = AnyOrigin | RequestHeaderList | PreflightMethodList | Text(text: string)

  /** The text a header value stands for on the wire. */
  function Wire(v: HeaderValue): string {
    match v
    case AnyOrigin => "*"
    case RequestHeaderList => "Origin, X-Requested-With, Content-Type, Accept, Authorization"
    case PreflightMethodList => "PUT, POST, PATCH, DELETE, GET"
    case Text(text) => text
  }

  /** The label of the generic 500 responses, spelled as the handler spells it. */
  const SERVER_ERROR_LABEL := "Internal Servier Error"
  const VALIDATION_LABEL := "BadRequest"
  const VALIDATION_MESSAGE := "Request data type check failed"

  /** What has been written as the response body: nothing yet, `res.json(v)`, `res.send(v)` or `res.end()`. */
  datatype Body = Unwritten | Json(value: JsValue) | Sent(value: JsValue) | Ended

  /** The observable state of a response: its headers, its status code, its body and
      how many times a body has been written. */
  datatype ResponseState = ResponseState(headers: map<Header, HeaderValue>, status: int, body: Body, writes: nat)

  /** The framework's response object, reduced to the calls the handler makes on it. */
  class Response {
    var headers: map<Header, HeaderValue>
    var status: int
    var body: Body
    var writes: nat

    function State(): ResponseState
      reads this
    {
      ResponseState(headers, status, body, writes)
    }

    /** A fresh response: no headers, the framework's default status 200, no body. */
    constructor ()
      ensures State() == ResponseState(map[], 200, Unwritten, 0)
    {
      headers, status, body, writes := map[], 200, Unwritten, 0;
    }

    /** `res.setHeader(name, value)`. */
    method SetHeader(name: Header, value: HeaderValue)
      modifies this
      ensures State() == old(State()).(headers := old(headers)[name := value])
    {
      headers := headers[name := value];
    }

    /** `res.status(code)`. */
    method SetStatus(code: int)
      modifies this
      ensures State() == old(State()).(status := code)
    {
      status := code;
    }

    /** `res.json(v)`. */
    method WriteJson(v: JsValue)
      modifies this
      ensures State() == old(State()).(body := Json(v), writes := old(writes) + 1)
    {
      body, writes := Json(v), writes + 1;
    }

    /** `res.send(v)`. */
    method Send(v: JsValue)
      modifies this
      ensures State() == old(State()).(body := Sent(v), writes := old(writes) + 1)
    {
      body, writes := Sent(v), writes + 1;
    }

    /** `res.end()`. */
    method End()
      modifies this
      ensures State() == old(State()).(body := Ended, writes := old(writes) + 1)
    {
      body, writes := Ended, writes + 1;
    }
  }

  /** The status chosen once the last middleware has returned `data`. */
  function SuccessStatus(reqMethod: Option<string>, data: JsValue): (s: int)
    ensures s == 200 || s == 201 || s == 204
    ensures s == 201 <==> reqMethod == Some("POST")
    ensures reqMethod != Some("POST") ==> (s == 200 <==> Truthy(data))
  {
    if reqMethod == Some("POST") then 201
    else if Truthy(data) then 200
    else 204
  }

  /** The body written once the last middleware has returned `data`. */
  function SuccessBody(data: JsValue): (b: Body)
    ensures b.Json? <==> TypeofIsObject(data)
    ensures b.Sent? <==> !TypeofIsObject(data) && Truthy(data)
    ensures b.Ended? <==> !TypeofIsObject(data) && !Truthy(data)
    ensures b.Json? || b.Sent? ==> b.value == data
  {
    if TypeofIsObject(data) then Json(data)
    else if Truthy(data) then Sent(data)
    else Ended
  }

  /** The status and JSON body the catch block writes for a thrown value outside test mode. */
  function ErrorReply(e: Thrown): (r: (int, JsValue))
    ensures 400 <= r.0 <= 500
    ensures r.1.Obj? && "error" in r.1.fields && "status" in r.1.fields
    ensures r.1.fields["status"] == Num(r.0)
    ensures "message" in r.1.fields <==> !e.NonError?
    ensures "issues" in r.1.fields <==> e.ZodError?
    ensures e.Http? ==> r.0 == e.exception.Status() && r.1.fields["error"] == Str(e.exception.Error())
    ensures e.Http? ==> r.1.fields["message"].Str? && r.1.fields["message"].s != ""
    ensures e.Http? && e.exception.message != "" ==> r.1.fields["message"] == Str(e.exception.message)
    ensures e.Http? && e.exception.message == "" ==> r.1.fields["message"] == Str(e.exception.Error())
    ensures r.1.fields.Keys == {"error", "status"} + (if e.NonError? then {} else {"message"})
                               + (if e.ZodError? then {"issues"} else {})
    ensures e.ZodError? ==> r.0 == 400 && r.1.fields["issues"] == e.issues
    ensures e.ZodError? ==> r.1.fields["error"] == Str(VALIDATION_LABEL) && r.1.fields["message"] == Str(VALIDATION_MESSAGE)
    ensures e.OtherError? || e.NonError? ==> r.0 == 500 && r.1.fields["error"] == Str(SERVER_ERROR_LABEL)
    ensures e.OtherError? ==> r.1.fields["message"] == Str(e.message)
  {
    match e
    case Http(x) =>
      (x.Status(), Obj(map["error" := Str(x.Error()),
                           "message" := Str(if x.message != "" then x.message else x.Error()),
                           "status" := Num(x.Status())]))
    case ZodError(issues) =>
      (400, Obj(map["error" := Str(VALIDATION_LABEL),
                    "message" := Str(VALIDATION_MESSAGE),
                    "issues" := issues,
                    "status" := Num(400)]))
    case OtherError(message) =>
      (500, Obj(map["error" := Str(SERVER_ERROR_LABEL),
                    "message" := Str(message),
                    "status" := Num(500)]))
    case NonError(_) =>
      (500, Obj(map["error" := Str(SERVER_ERROR_LABEL),
                    "status" := Num(500)]))
  }

  /** The index of the first middleware that throws, or `|ms|` when none does. */
  function FirstThrow(ms: seq<Completion>): (k: nat)
    ensures k <= |ms|
    ensures forall i :: 0 <= i < k ==> ms[i].Returned?
    ensures k < |ms| ==> ms[k].Threw?
  {
    if ms == [] then 0
    else if ms[0].Threw? then 0
    else 1 + FirstThrow(ms[1..])
  }

  /** How many middlewares get called: every one up to and including the first that throws. */
  function Invoked(ms: seq<Completion>): (n: nat)
    ensures n <= |ms|
    ensures n == |ms| <==> FirstThrow(ms) >= |ms| - 1
  {
    if FirstThrow(ms) < |ms| then FirstThrow(ms) + 1 else |ms|
  }

  /** The indices `0, 1, …, n - 1` in order. */
  function Indices(n: nat): (r: seq<nat>)
    ensures |r| == n
    ensures forall i :: 0 <= i < n ==> r[i] == i
  {
    seq(n, i requires 0 <= i < n => i)
  }

  /** The end of one invocation of the handler: the response, how many middlewares ran,
      and the value rethrown in test mode. */
  datatype Outcome = Outcome(final: ResponseState, invoked: nat, rethrown: Option<Thrown>)

  /** Both CORS headers, set unconditionally before anything else. */
  function WithCors(s: ResponseState): ResponseState {
    s.(headers := s.headers[CorsAllowOrigin := AnyOrigin][CorsAllowHeaders := RequestHeaderList])
  }

  /** The catch block: rethrow in test mode, otherwise write the error reply once. */
  function Catch(s: ResponseState, e: Thrown, invoked: nat, testMode: bool): (o: Outcome)
    ensures o.invoked == invoked
    ensures o.rethrown.Some? <==> testMode
    ensures testMode ==> o.rethrown == Some(e) && o.final == s
    ensures !testMode ==> o.final.headers == s.headers && o.final.writes == s.writes + 1
                          && o.final.status == ErrorReply(e).0 && o.final.body == Json(ErrorReply(e).1)
  {
    if testMode then Outcome(s, invoked, Some(e))
    else
      var reply := ErrorReply(e);
      Outcome(s.(status := reply.0, body := Json(reply.1), writes := s.writes + 1), invoked, None)
  }

  /** The preflight answer: the methods header, status 200 and an empty body. */
  function Preflight(s: ResponseState): (r: ResponseState)
    ensures r.headers.Keys == s.headers.Keys + {CorsAllowMethods}
    ensures r.headers[CorsAllowMethods] == PreflightMethodList
    ensures forall h :: h in s.headers && h != CorsAllowMethods ==> r.headers[h] == s.headers[h]
    ensures r.status == 200 && r.body == Ended && r.writes == s.writes + 1
  {
    s.(headers := s.headers[CorsAllowMethods := PreflightMethodList], status := 200, body := Ended, writes := s.writes + 1)
  }

  /** The response once the last middleware has returned `data`. */
  function Complete(s: ResponseState, reqMethod: Option<string>, data: JsValue): (r: ResponseState)
    ensures r.headers == s.headers && r.writes == s.writes + 1
    ensures r.status == SuccessStatus(reqMethod, data) && r.body == SuccessBody(data)
  {
    s.(status := SuccessStatus(reqMethod, data), body := SuccessBody(data), writes := s.writes + 1)
  }

  /** The `try` block and its `catch`, run on a response that already carries the CORS headers. */
  function RunMiddlewares(s: ResponseState, reqMethod: Option<string>, ms: seq<Completion>, testMode: bool): (o: Outcome)
    ensures o.invoked == Invoked(ms)
    ensures o.final.headers == s.headers
    ensures o.rethrown.Some? <==> testMode && FirstThrow(ms) < |ms|
    ensures o.rethrown.Some? ==> o.final == s && o.rethrown.value == ms[FirstThrow(ms)].error
    ensures o.final.writes == s.writes + (if o.rethrown.Some? || ms == [] then 0 else 1)
  {
    var k := FirstThrow(ms);
    if k < |ms| then Catch(s, ms[k].error, k + 1, testMode)
    else if ms == [] then Outcome(s, 0, None)
    else Outcome(Complete(s, reqMethod, ms[|ms| - 1].value), |ms|, None)
  }

  /** What the handler does to a response in state `s` for a request with method `reqMethod`
      when its middlewares complete as `ms`. */
  function Run(s: ResponseState, reqMethod: Option<string>, ms: seq<Completion>, testMode: bool): (o: Outcome)
    ensures o.final.headers.Keys >= s.headers.Keys + {CorsAllowOrigin, CorsAllowHeaders}
    ensures o.final.headers[CorsAllowOrigin] == AnyOrigin && o.final.headers[CorsAllowHeaders] == RequestHeaderList
    ensures reqMethod == Some("OPTIONS") ==> o.invoked == 0 && o.rethrown.None?
    ensures reqMethod != Some("OPTIONS") ==> o.invoked == Invoked(ms)
  {
    if reqMethod == Some("OPTIONS") then Outcome(Preflight(WithCors(s)), 0, None)
    else RunMiddlewares(WithCors(s), reqMethod, ms, testMode)
  }

  /** The handler returned by `apiHandler(...middlewares)`, applied to one request. Calls
      the middlewares in order and returns the indices it called; in test mode the caught
      value is handed back as `rethrown` instead of being rendered. */
  method Handle(res: Response, reqMethod: Option<string>, middlewares: seq<Completion>, testMode: bool)
    returns (invoked: seq<nat>, rethrown: Option<Thrown>)
    modifies res
    ensures var out := Run(old(res.State()), reqMethod, middlewares, testMode);
            res.State() == out.final && invoked == Indices(out.invoked) && rethrown == out.rethrown
  {
    res.SetHeader(CorsAllowOrigin, AnyOrigin);
    res.SetHeader(CorsAllowHeaders, RequestHeaderList);
    invoked, rethrown := [], None;
    if reqMethod == Some("OPTIONS") {
      res.SetHeader(CorsAllowMethods, PreflightMethodList);
      res.SetStatus(200);
      res.End();
    } else {
      ghost var s1 := res.State();
      var caught: Option<Thrown> := None;
      var i := 0;
      while i < |middlewares| && caught.None?
        invariant 0 <= i <= |middlewares|
        invariant invoked == Indices(i)
        invariant caught.None? ==> i <= FirstThrow(middlewares)
        invariant caught.None? && i < |middlewares| ==> res.State() == s1
        invariant caught.None? && i == |middlewares| ==>
                    res.State() == Run(old(res.State()), reqMethod, middlewares, testMode).final
        invariant caught.Some? ==> 0 < i && i - 1 == FirstThrow(middlewares)
                                   && caught.value == middlewares[i - 1].error && res.State() == s1
      {
        invoked := invoked + [i];
        match middlewares[i] {
          case Threw(e) =>
            caught := Some(e);
          case Returned(data) =>
            if i == |middlewares| - 1 {
              if reqMethod == Some("POST") {
                res.SetStatus(201);
              } else {
                res.SetStatus(if Truthy(data) then 200 else 204);
              }
              if TypeofIsObject(data) {
                res.WriteJson(data);
              } else if Truthy(data) {
                res.Send(data);
              } else {
                res.End();
              }
            }
        }
        i := i + 1;
      }
      if caught.Some? {
        if testMode {
          rethrown := caught;
        } else {
          var reply := ErrorReply(caught.value);
          res.SetStatus(reply.0);
          res.WriteJson(reply.1);
        }
      }
    }
  }

  /** Appending middlewares after one that throws changes nothing about where the first throw is. */
  lemma {:induction false} FirstThrowAppend(ms: seq<Completion>, rest: seq<Completion>)
    requires FirstThrow(ms) < |ms|
    ensures FirstThrow(ms + rest) == FirstThrow(ms)
    ensures (ms + rest)[FirstThrow(ms)] == ms[FirstThrow(ms)]
  {
    if ms[0].Returned? {
      assert (ms + rest)[1..] == ms[1..] + rest;
      FirstThrowAppend(ms[1..], rest);
    }
  }

  /** Both CORS headers are set for every request, the methods header only for a preflight,
      and no other header is touched. */
  lemma CorsHeadersAlwaysSet(s: ResponseState, reqMethod: Option<string>, ms: seq<Completion>, testMode: bool)
    ensures var h := Run(s, reqMethod, ms, testMode).final.headers;
            CorsAllowOrigin in h && h[CorsAllowOrigin] == AnyOrigin
            && CorsAllowHeaders in h && h[CorsAllowHeaders] == RequestHeaderList
    ensures reqMethod == Some("OPTIONS") ==>
              var h := Run(s, reqMethod, ms, testMode).final.headers;
              CorsAllowMethods in h && h[CorsAllowMethods] == PreflightMethodList
    ensures reqMethod != Some("OPTIONS") ==>
              Run(s, reqMethod, ms, testMode).final.headers == WithCors(s).headers
    ensures forall name: Header :: name.Other? ==>
              (name in Run(s, reqMethod, ms, testMode).final.headers <==> name in s.headers)
              && (name in s.headers ==> Run(s, reqMethod, ms, testMode).final.headers[name] == s.headers[name])
  {
  }

  /** A preflight request runs no middleware and ends with an empty 200 response. */
  lemma PreflightRunsNoMiddleware(s: ResponseState, ms: seq<Completion>, testMode: bool)
    ensures var out := Run(s, Some("OPTIONS"), ms, testMode);
            out.invoked == 0 && out.rethrown == None
            && out.final.status == 200 && out.final.body == Ended
  {
  }

  /** When middleware `i` is the first to throw, exactly the middlewares `0..i` run and the
      response comes from the catch block alone. */
  lemma ThrowStopsPipeline(s: ResponseState, reqMethod: Option<string>, ms: seq<Completion>, testMode: bool, i: nat)
    requires reqMethod != Some("OPTIONS")
    requires i < |ms| && ms[i].Threw?
    requires forall j :: 0 <= j < i ==> ms[j].Returned?
    ensures var out := Run(s, reqMethod, ms, testMode);
            out.invoked == i + 1
            && (testMode ==> out.rethrown == Some(ms[i].error) && out.final == WithCors(s))
            && (!testMode ==> out.rethrown == None
                              && out.final.status == ErrorReply(ms[i].error).0
                              && out.final.body == Json(ErrorReply(ms[i].error).1))
  {
    assert FirstThrow(ms) == i;
  }

  /** Two pipelines that agree up to a middleware that throws have the same first throw. */
  lemma FirstThrowAgree(ms1: seq<Completion>, ms2: seq<Completion>, i: nat)
    requires i < |ms1| && i < |ms2| && ms1[i].Threw?
    requires forall j :: 0 <= j <= i ==> ms1[j] == ms2[j]
    ensures FirstThrow(ms1) == FirstThrow(ms2) <= i
  {
  }

  /** Middlewares after one that throws never influence the outcome: two pipelines that
      agree on middlewares `0..i`, where middleware `i` throws, end alike whatever follows. */
  lemma LaterMiddlewaresIrrelevant(s: ResponseState, reqMethod: Option<string>, ms1: seq<Completion>,
                                   ms2: seq<Completion>, testMode: bool, i: nat)
    requires i < |ms1| && i < |ms2| && ms1[i].Threw?
    requires forall j :: 0 <= j <= i ==> ms1[j] == ms2[j]
    ensures Run(s, reqMethod, ms1, testMode) == Run(s, reqMethod, ms2, testMode)
  {
    FirstThrowAgree(ms1, ms2, i);
    SameThrowSameOutcome(WithCors(s), reqMethod, ms1, ms2, testMode, FirstThrow(ms1));
  }

  /** Two middleware runs that first throw at the same index with the same value end alike. */
  lemma SameThrowSameOutcome(s: ResponseState, reqMethod: Option<string>, ms1: seq<Completion>,
                             ms2: seq<Completion>, testMode: bool, k: nat)
    requires k == FirstThrow(ms1) == FirstThrow(ms2) && k < |ms1| && k < |ms2| && ms1[k] == ms2[k]
    ensures RunMiddlewares(s, reqMethod, ms1, testMode) == RunMiddlewares(s, reqMethod, ms2, testMode)
  {
  }

  /** A POST whose middlewares all return is answered 201 whatever the last value is. */
  lemma PostIsCreated(s: ResponseState, ms: seq<Completion>, testMode: bool)
    requires ms != [] && forall i :: 0 <= i < |ms| ==> ms[i].Returned?
    ensures Run(s, Some("POST"), ms, testMode).final.status == 201
  {
  }

  /** Only the last middleware's value matters: two runs whose middlewares all return and
      agree on the last value produce the same outcome. */
  lemma EarlierValuesDiscarded(s: ResponseState, reqMethod: Option<string>, ms1: seq<Completion>,
                               ms2: seq<Completion>, testMode: bool)
    requires |ms1| == |ms2| > 0
    requires forall i :: 0 <= i < |ms1| ==> ms1[i].Returned? && ms2[i].Returned?
    requires ms1[|ms1| - 1] == ms2[|ms2| - 1]
    ensures Run(s, reqMethod, ms1, testMode) == Run(s, reqMethod, ms2, testMode)
  {
  }

  /** A GET whose last middleware returns `null` is answered 204 with the JSON body `null`. */
  lemma NullIsNoContentJson(s: ResponseState, ms: seq<Completion>, testMode: bool)
    requires ms != [] && forall i :: 0 <= i < |ms| ==> ms[i].Returned?
    requires ms[|ms| - 1] == Returned(Null)
    ensures Run(s, Some("GET"), ms, testMode).final.status == 204
    ensures Run(s, Some("GET"), ms, testMode).final.body == Json(Null)
  {
  }

  /** Each invocation writes exactly one body, except when it rethrows in test mode or has
      no middleware to run. */
  lemma ExactlyOneResponse(s: ResponseState, reqMethod: Option<string>, ms: seq<Completion>, testMode: bool)
    ensures var out := Run(s, reqMethod, ms, testMode);
            out.final.writes
              == s.writes + (if out.rethrown.Some? || (reqMethod != Some("OPTIONS") && ms == []) then 0 else 1)
    ensures var out := Run(s, reqMethod, ms, testMode);
            out.rethrown.Some? <==> testMode && reqMethod != Some("OPTIONS") && FirstThrow(ms) < |ms|
  {
  }

  /** The number of middlewares called is the count up to and including the first throw. */
  lemma InvokedPrefix(s: ResponseState, reqMethod: Option<string>, ms: seq<Completion>, testMode: bool)
    requires reqMethod != Some("OPTIONS")
    ensures Run(s, reqMethod, ms, testMode).invoked == Invoked(ms)
    ensures forall i :: 0 <= i < Invoked(ms) - 1 ==> ms[i].Returned?
  {
  }
}
