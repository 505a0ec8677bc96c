/** The middleware builders of `src/guard.ts`: the method allow-list, the
    authentication guard and the scope guard. */
module Guard {
  import opened Wrappers
  import opened Js
  import opened Exceptions

  const MISSING_METHOD_MESSAGE := "req.method is missing"
  const UNDEFINED_METHOD_MESSAGE := "Unexpected undefined method"
  const SCOPE_PARAMS_MESSAGE := "Unexpected require scope params."

  /** An optional method string as a JavaScript value, for the `!method` tests. */
  function MethodValue(m: Option<string>): (v: JsValue)
    ensures Truthy(v) <==> m.Some? && m.value != ""
  {
    if m.Some? then Str(m.value) else Undefined
  }

  /** `methods.map((method) => method.toUpperCase())`. */
  function UpperAll(methods: seq<string>): (r: seq<string>)
    ensures |r| == |methods|
    ensures forall i :: 0 <= i < |methods| ==> r[i] == ToUpperCase(methods[i])
  {
    seq(|methods|, i requires 0 <= i < |methods| => ToUpperCase(methods[i]))
  }

  /** The middleware built by `allowMethods(...methods)`, run on a request whose method is `reqMethod`. */
  function AllowMethods(methods: seq<string>, reqMethod: Option<string>): (r: Completion)
    ensures reqMethod.None? || reqMethod == Some("") ==> r == Threw(OtherError(MISSING_METHOD_MESSAGE))
    ensures reqMethod == Some("OPTIONS") ==> r == DONE
    ensures reqMethod.Some? && reqMethod.value != "" ==>
              (r == DONE <==> reqMethod.value == "OPTIONS"
                              || exists j :: 0 <= j < |methods| && ToUpperCase(methods[j]) == reqMethod.value)
    ensures reqMethod.Some? && reqMethod.value != "" && r != DONE ==>
              r == Threw(Http(New(MethodNotAllowed, None)))
  {
    if !Truthy(MethodValue(reqMethod)) then Threw(OtherError(MISSING_METHOD_MESSAGE))
    else if reqMethod.value != "OPTIONS" && reqMethod.value !in UpperAll(methods) then
      Threw(Http(New(MethodNotAllowed, None)))
    else DONE
  }

  /** The allow-list compares the request method as it is: a lower-case request method is
      refused even when the list names that method. */
  lemma AllowMethodsIsCaseSensitiveOnRequest(methods: seq<string>)
    requires "GET" in methods
    ensures AllowMethods(methods, Some("GET")) == DONE
    ensures AllowMethods(methods, Some("get")) == Threw(Http(New(MethodNotAllowed, None)))
  {
    var i :| 0 <= i < |methods| && methods[i] == "GET";
    assert ToUpperCase(methods[i]) == "GET";
    forall j | 0 <= j < |methods|
      ensures ToUpperCase(methods[j]) != "get"
    {
      assert ToUpperCase(methods[j]) != "get" by {
        if |methods[j]| == 3 {
          assert !IsLowerAscii(ToUpperCase(methods[j])[0]);
        }
      }
    }
  }

  /** A request, reduced to the two properties the guards read and write. */
  class Request {
    var httpMethod: Option<string>
    var auth: Option<string>

    constructor (httpMethod: Option<string>)
      ensures this.httpMethod == httpMethod && auth == None
    {
      this.httpMethod, auth := httpMethod, None;
    }

    /** The middleware built by `buildRequireAuth(resolver)`, where `resolved` is what the
        resolver yields for this request. */
    method RequireAuth(testMode: bool, resolved: Result<string, Thrown>) returns (r: Completion)
      modifies this`auth
      ensures testMode ==> r == DONE && auth == old(auth)
      ensures !testMode && resolved.Success? ==> r == DONE && auth == Some(resolved.value)
      ensures !testMode && resolved.Failure? ==> r == Threw(Http(New(Unauthorized, None))) && auth == old(auth)
    {
      if testMode {
        return DONE;
      }
      match resolved {
        case Success(userId) =>
          auth := Some(userId);
          r := DONE;
        case Failure(_) =>
          r := Threw(Http(New(Unauthorized, None)));
      }
    }
  }

  /** The positional arguments of `buildRequireScope(resolver)(scope, method, scope2, method2,
      scope3, method3)`, the first pair here named `scope1` and `method1`; an omitted scope is
      `Undefined` and an omitted method `None`. */
  datatype ScopeParams = ScopeParams(scope1: JsValue, method1: Option<string>,
                                     scope2: JsValue, method2: Option<string>,
                                     scope3: JsValue, method3: Option<string>)
  {
    function Methods(): seq<Option<string>> {
      [method1, method2, method3]
    }
    function Scopes(): seq<JsValue> {
      [scope1, scope2, scope3]
    }
  }

  /** The position of the first slot whose method is `reqMethod`, or `|methods|` when none is. */
  function FirstMatch(methods: seq<Option<string>>, reqMethod: string): (k: nat)
    ensures k <= |methods|
    ensures forall j :: 0 <= j < k ==> methods[j] != Some(reqMethod)
    ensures k < |methods| ==> methods[k] == Some(reqMethod)
  {
    if methods == [] then 0
    else if methods[0] == Some(reqMethod) then 0
    else 1 + FirstMatch(methods[1..], reqMethod)
  }

  /** `getRequiredScope(reqMethod, scope, method, scope2, method2, scope3, method3)`: the scope
      the request needs (`Undefined` for none), or the error for a matched slot without a scope. */
  function GetRequiredScope(reqMethod: string, p: ScopeParams): (r: Completion)
    ensures !Truthy(MethodValue(p.method1)) ==> r == Returned(p.scope1)
    ensures Truthy(MethodValue(p.method1)) ==>
              var k := FirstMatch(p.Methods(), reqMethod);
              && (k == 0 ==> r == Returned(p.scope1))
              && (0 < k < 3 ==> r == if Truthy(p.Scopes()[k]) then Returned(p.Scopes()[k])
                                     else Threw(OtherError(SCOPE_PARAMS_MESSAGE)))
              && (k == 3 ==> r == Returned(Undefined))
  {
    assert p.Methods()[1] == p.method2 && p.Methods()[2] == p.method3;
    if !Truthy(MethodValue(p.method1)) then Returned(p.scope1)
    else if Some(reqMethod) == p.method1 then Returned(p.scope1)
    else if Some(reqMethod) == p.method2 then
      if !Truthy(p.scope2) then Threw(OtherError(SCOPE_PARAMS_MESSAGE)) else Returned(p.scope2)
    else if Some(reqMethod) == p.method3 then
      if !Truthy(p.scope3) then Threw(OtherError(SCOPE_PARAMS_MESSAGE)) else Returned(p.scope3)
    else Returned(Undefined)
  }

  /** The selected scope is always one of the three given ones or `Undefined`, and the only
      error the selection raises is the one for a matched slot without a scope. */
  lemma RequiredScopeIsGiven(reqMethod: string, p: ScopeParams)
    ensures var r := GetRequiredScope(reqMethod, p);
            r.Returned? ==> r.value in {p.scope1, p.scope2, p.scope3, Undefined}
    ensures var r := GetRequiredScope(reqMethod, p);
            r.Threw? ==> r.error == OtherError(SCOPE_PARAMS_MESSAGE)
  {
  }

  /** The middleware built by `buildRequireScope(resolver)(...)` with parameters `p`, run on a request
      whose method is `reqMethod`; `granted` is what the resolver yields for the request's caller. */
  function RequireScope(testMode: bool, reqMethod: Option<string>, p: ScopeParams,
                        granted: Result<seq<JsValue>, Thrown>): (r: Completion)
    ensures testMode ==> r == DONE
    ensures !testMode && !Truthy(MethodValue(reqMethod)) ==> r == Threw(OtherError(UNDEFINED_METHOD_MESSAGE))
    ensures !testMode && Truthy(MethodValue(reqMethod)) ==>
              var required := GetRequiredScope(ToUpperCase(reqMethod.value), p);
              && (required.Threw? ==> r == required)
              && (required.Returned? && !Truthy(required.value) ==> r == DONE)
              && (required.Returned? && Truthy(required.value) && granted.Failure? ==> r == Threw(granted.error))
              && (required.Returned? && Truthy(required.value) && granted.Success? ==>
                    (r == DONE <==> required.value in granted.value)
                    && (r != DONE ==> r == Threw(Http(New(Forbidden, None)))))
  {
    var upper := if reqMethod.Some? then Some(ToUpperCase(reqMethod.value)) else None;
    if testMode then DONE
    else if !Truthy(MethodValue(upper)) then Threw(OtherError(UNDEFINED_METHOD_MESSAGE))
    else
      var required := GetRequiredScope(upper.value, p);
      if required.Threw? then required
      else if !Truthy(required.value) then DONE
      else if granted.Failure? then Threw(granted.error)
      else if required.value !in granted.value then Threw(Http(New(Forbidden, None)))
      else DONE
  }

  /** When no scope is required the granted scopes are never consulted: the result is the
      same whatever the resolver would have answered. */
  lemma RequireScopeIgnoresGrantedWhenNotRequired(testMode: bool, m: string, p: ScopeParams,
                                                  g1: Result<seq<JsValue>, Thrown>,
                                                  g2: Result<seq<JsValue>, Thrown>)
    requires m != ""
    requires var required := GetRequiredScope(ToUpperCase(m), p);
             required.Threw? || !Truthy(required.value)
    ensures RequireScope(testMode, Some(m), p, g1) == RequireScope(testMode, Some(m), p, g2)
  {
  }

  /** The request method is upper-cased before selection, so its case never matters. */
  lemma RequireScopeIgnoresCase(testMode: bool, m: string, p: ScopeParams, granted: Result<seq<JsValue>, Thrown>)
    ensures RequireScope(testMode, Some(ToUpperCase(m)), p, granted) == RequireScope(testMode, Some(m), p, granted)
  {
    ToUpperCaseIdempotent(m);
    ToUpperCaseEmpty(m);
  }

  /** Outside test mode the guard lets a request through only when the selected scope is
      falsy or the caller holds it. */
  lemma RequireScopePassesOnlyIfGranted(reqMethod: Option<string>, p: ScopeParams, granted: Result<seq<JsValue>, Thrown>)
    requires RequireScope(false, reqMethod, p, granted) == DONE
    ensures reqMethod.Some? && reqMethod.value != ""
    ensures var required := GetRequiredScope(ToUpperCase(reqMethod.value), p);
            required.Returned? && (!Truthy(required.value) || (granted.Success? && required.value in granted.value))
  {
  }
}
