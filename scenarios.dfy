/** Concrete requests run through the guards and the handler together: the guards'
    completions are the middleware completions the handler sees. */
module Scenarios {
  import opened Wrappers
  import opened Js
  import opened Exceptions
  import opened Api
  import opened Guard

  /** The allow-list `['GET', 'POST']` is already upper case. */
  lemma UpperGetPost()
    ensures UpperAll(["GET", "POST"]) == ["GET", "POST"]
  {
    ToUpperCaseFixed("GET");
    ToUpperCaseFixed("POST");
  }

  /** `allowMethods('GET', 'POST')` lets GET, POST and OPTIONS through. */
  lemma AllowGetPostPasses()
    ensures AllowMethods(["GET", "POST"], Some("GET")) == DONE
    ensures AllowMethods(["GET", "POST"], Some("POST")) == DONE
    ensures AllowMethods(["GET", "POST"], Some("OPTIONS")) == DONE
  {
    UpperGetPost();
  }

  /** `allowMethods('GET', 'POST')` refuses DELETE with 405, and a request without a
      method with a generic error. */
  lemma AllowGetPostRefuses()
    ensures AllowMethods(["GET", "POST"], Some("DELETE")) == Threw(Http(New(MethodNotAllowed, None)))
    ensures AllowMethods(["GET", "POST"], None) == Threw(OtherError(MISSING_METHOD_MESSAGE))
  {
    UpperGetPost();
    assert "DELETE" != "GET" && "DELETE" != "POST";
  }

  /** The 405 that the allow-list raises reaches the client as a JSON body whose message is
      the base class's default, since the subclass declares no constructor. */
  lemma RefusedMethodResponse(s: ResponseState, rest: seq<Completion>)
    ensures var out := Run(s, Some("DELETE"), [AllowMethods(["GET", "POST"], Some("DELETE"))] + rest, false);
            out.invoked == 1 && out.rethrown == None && out.final.status == 405
            && out.final.body == Json(Obj(map["error" := Str("Method Not Allowed"),
                                              "message" := Str("Internal Server Error"),
                                              "status" := Num(405)]))
  {
    AllowGetPostRefuses();
    var ms := [AllowMethods(["GET", "POST"], Some("DELETE"))];
    LaterMiddlewaresIrrelevant(s, Some("DELETE"), ms, ms + rest, false, 0);
  }

  /** A scope given without any method is required for every method. */
  lemma UnconditionalScope(m: string, granted: seq<JsValue>)
    requires m != ""
    ensures var p := ScopeParams(Str("a"), None, Undefined, None, Undefined, None);
            RequireScope(false, Some(m), p, Success(granted))
              == if Str("a") in granted then DONE else Threw(Http(New(Forbidden, None)))
  {
    ToUpperCaseEmpty(m);
  }

  /** With `(A, 'GET', B, 'POST')`, a PUT needs no scope at all and a GET needs `A`. */
  lemma PerMethodScopes(granted: Result<seq<JsValue>, Thrown>)
    ensures var p := ScopeParams(Str("A"), Some("GET"), Str("B"), Some("POST"), Undefined, None);
            RequireScope(false, Some("PUT"), p, granted) == DONE
    ensures var p := ScopeParams(Str("A"), Some("GET"), Str("B"), Some("POST"), Undefined, None);
            granted.Success? && Str("A") !in granted.value ==>
              RequireScope(false, Some("get"), p, granted) == Threw(Http(New(Forbidden, None)))
  {
    ToUpperCaseFixed("PUT");
    assert ToUpperCase("get") == "GET";
  }

  /** A rejected identity resolver turns into a 401 response whose message is the label. */
  method UnauthorizedRequest(rest: seq<Completion>) returns (status: int, body: Body)
    ensures status == 401
    ensures body == Json(Obj(map["error" := Str("Unauthorized"), "message" := Str("Unauthorized"),
                                 "status" := Num(401)]))
  {
    var req := new Request(Some("GET"));
    var res := new Response();
    var auth := req.RequireAuth(false, Failure(NonError(Str("token expired"))));
    LaterMiddlewaresIrrelevant(res.State(), Some("GET"), [auth], [auth] + rest, false, 0);
    var invoked, rethrown := Handle(res, Some("GET"), [auth] + rest, false);
    status, body := res.status, res.body;
  }

  /** An authenticated GET whose handler returns a string is answered 200 with that string,
      and the caller's identity is attached to the request. */
  method AuthenticatedGet(user: string, greeting: string) returns (status: int, body: Body, auth: Option<string>)
    requires greeting != ""
    ensures status == 200 && body == Sent(Str(greeting)) && auth == Some(user)
  {
    var req := new Request(Some("GET"));
    var res := new Response();
    var guard := req.RequireAuth(false, Success(user));
    var invoked, rethrown := Handle(res, req.httpMethod, [guard, Returned(Str(greeting))], false);
    status, body, auth := res.status, res.body, req.auth;
  }
}
