# next-api-handler, modelled in Dafny

This project models the decision logic of a small helper layer for Next.js API routes:

- a family of HTTP exception classes (`src/api.ts`);
- `apiHandler`, which composes middlewares into one route handler. It sets the CORS headers, answers preflight (`OPTIONS`) requests itself, and runs the middlewares in order. It then picks the status and body from the last middleware's value, and turns a thrown value into a single JSON error response, or rethrows it in test mode (`src/api.ts`);
- the guards `allowMethods`, `buildRequireAuth` and `buildRequireScope` with its helper `getRequiredScope` (`src/guard.ts`).

Modules, one per concern:

- `Wrappers` (`wrappers.dfy`): `Option` and `Result`.
- `Js` (`js.dfy`): JavaScript values (`Undefined | Null | Bool | Num | Str | Obj`), truthiness, `typeof v === 'object'` (which includes `null`) and ASCII `toUpperCase`.
- `Exceptions` (`exceptions.dfy`): the exception classes as a `Kind` tag, with status, label and default message. It also holds `Thrown`, the four kinds of thrown value the catch block tells apart, and `Completion`, meaning a call returned v or threw e.
- `Api` (`api.dfy`): the framework response as a class `Response` holding headers, status, body and a count of body writes. `Run` is the reference definition of one handler invocation. `Handle` is the handler itself, a loop over the middlewares proved to leave the response exactly as `Run` says. Lemmas about `Run` follow.
- `Guard` (`guard.dfy`): the guards. `allowMethods`, `getRequiredScope` and the scope guard are functions. The authentication guard is a method on a `Request` class, because it assigns `req.auth`.
- `Scenarios` (`scenarios.dfy`): concrete requests run through guards and handler together.

A middleware, guard or resolver call is represented by its `Completion`. The handler is given the sequence of completions its middlewares would produce. The test-mode switch (`NODE_ENV === 'test'`) is a boolean parameter.

Where the code's behaviour may be unexpected, the model follows the code as written:

- The generic 500 responses carry the label `'Internal Servier Error'`, spelled as in the code.
- `allowMethods` upper-cases the allow-list entries but compares the request method exactly as given, so `'get'` is refused even when `'GET'` is listed (`Guard.AllowMethodsIsCaseSensitiveOnRequest`).
- `BadRequestException`, `ForbiddenException`, `MethodNotAllowedException` and `ConflictException` declare no constructor. Their default message is the base class's `'Internal Server Error'`, so a 405 or 403 response says `message: 'Internal Server Error'` (`Exceptions.DefaultMessageIsLabel`, `Scenarios.RefusedMethodResponse`).
- `getRequiredScope` returns slot 1's scope on a match even when that scope is absent, so the request then passes. Only slots 2 and 3 raise the configuration error.
- The code accepts an empty middleware list. The loop then never runs, and no status or body is written (`Api.ExactlyOneResponse`).
- A GET whose last middleware returns `null` gets status 204 with the JSON body `null`, since `typeof null === 'object'` (`Api.NullIsNoContentJson`).

## Model

| member | source | states |
|---|---|---|
| `Js.FalsyValues` | src/api.ts:81 | the values `data ? …` treats as false are exactly undefined, null, false, 0 and '' |
| `Js.FalsyObjectIsNull` | src/api.ts:81-89 | among values with `typeof` 'object', null is the only falsy one |
| `Js.ToUpperCase` | src/guard.ts:14 | `toUpperCase` keeps the length and upper-cases every character on its own |
| `Js.ToUpperCaseIdempotent` | src/guard.ts:84-88 | upper-casing twice is the same as upper-casing once |
| `Js.ToUpperCaseEmpty` | src/guard.ts:84-86 | the upper-cased method is empty exactly when the method is, so `!req.method?.toUpperCase()` agrees with `!req.method` |
| `Js.ToUpperCaseFixed` | src/guard.ts:14 | a string with no lower-case letters is unchanged by upper-casing |
| `Exceptions.StatusOf` | src/api.ts:4-54 | every class's status is between 400 and 500, and it is 500 only for the base class |
| `Exceptions.LabelOf` | src/api.ts:4-54 | every class's `error` label is non-empty |
| `Exceptions.DefaultMessage` | src/api.ts:7-51 | the message an omitted argument defaults to is never empty. It is the class's own label for the four classes that declare a constructor (`HttpException`, `UnauthorizedException`, `NotFoundException`, `UnprocessableEntityException`), and the base 'Internal Server Error' for the rest |
| `Exceptions.New` | src/api.ts:7-9 | the exception has the class it was built from; a given message is kept and an omitted one becomes the class's default |
| `Exceptions.StatusIdentifiesKind` | src/api.ts:4-54 | distinct classes have distinct status codes (400, 401, 403, 404, 405, 409, 422, 500) |
| `Exceptions.MessageOnlyChangesMessage` | src/api.ts:4-54 | passing a message never changes the status or the label |
| `Exceptions.DefaultMessageIsLabel` | src/api.ts:7-54 | the default message equals the class's own label exactly when the class declares a constructor; otherwise it is the base label 'Internal Server Error' |
| `Api.Response.constructor` | src/api.ts:61 | a response the framework hands over has no headers, status 200 and no body yet |
| `Api.Response.SetHeader` | src/api.ts:62-71 | `res.setHeader(name, value)` sets that one header and changes nothing else |
| `Api.Response.SetStatus` | src/api.ts:72-118 | `res.status(code)` sets the status and changes nothing else |
| `Api.Response.WriteJson` | src/api.ts:84-118 | `res.json(v)` makes `v` the JSON body and counts one body write; nothing else changes |
| `Api.Response.Send` | src/api.ts:86 | `res.send(v)` makes `v` the raw body and counts one body write; nothing else changes |
| `Api.Response.End` | src/api.ts:72-88 | `res.end()` leaves the body empty and counts one body write; nothing else changes |
| `Api.SuccessStatus` | src/api.ts:78-82 | the status is 201 exactly for POST; for any other method it is 200 when the value is truthy and 204 otherwise |
| `Api.SuccessBody` | src/api.ts:83-89 | the body is JSON exactly when `typeof data === 'object'`, the raw value when it is a truthy non-object, and empty otherwise; JSON and raw bodies carry the value itself |
| `Api.ErrorReply` | src/api.ts:96-121 | the JSON error body always has `error` and `status` fields, and `status` matches the status code. It has a `message` unless a non-Error was thrown, and `issues` exactly for a ZodError. No other field is present. An HttpException gets its own status and label and a non-empty message (its own, or the label when its own is empty). A ZodError gets 400, the label 'BadRequest', the message 'Request data type check failed' and its issues. An Error gets 500, 'Internal Servier Error' and its own message; a non-Error gets 500 and 'Internal Servier Error' |
| `Api.Catch` | src/api.ts:92-121 | the catch block keeps the number of middlewares called. In test mode it rethrows the value and leaves the response as it was. Otherwise it rethrows nothing, keeps the headers, and writes the error reply's status and JSON body once |
| `Api.Preflight` | src/api.ts:67-72 | an OPTIONS request adds the allowed-methods header, keeps every other header, and ends with status 200, an empty body and one body write |
| `Api.Complete` | src/api.ts:77-90 | after the last middleware returns, the headers are kept, the status and body are the success status and body of its value, and one body write is counted |
| `Api.FirstThrow` | src/api.ts:75-76 | finds the first middleware that throws: all earlier ones returned, and the one found threw (or there is none) |
| `Api.Invoked` | src/api.ts:75-76 | the number of middlewares called; it is all of them exactly when no middleware before the last throws |
| `Api.RunMiddlewares` | src/api.ts:74-121 | the `try` block and its `catch` call `Invoked(ms)` middlewares and leave the headers alone. They rethrow exactly in test mode when some middleware throws, and then rethrow that middleware's value and leave the response as it was. One body is written unless they rethrow or there is no middleware |
| `Api.Run` | src/api.ts:61-124 | one invocation of the handler sets both CORS headers and keeps every header already present. A preflight calls no middleware and rethrows nothing; any other request calls `Invoked(ms)` middlewares |
| `Api.Handle` | src/api.ts:61-124 | the loop leaves the response exactly as `Run` says, calls middlewares `0, 1, …` in index order as far as `Run` says, and rethrows exactly what `Run` rethrows |
| `Api.FirstThrowAppend` | src/api.ts:75-76 | appending middlewares after one that throws does not move the first throw |
| `Api.CorsHeadersAlwaysSet` | src/api.ts:62-71 | both CORS headers are set for every request; the methods header is set for a preflight only; no other header is touched |
| `Api.PreflightRunsNoMiddleware` | src/api.ts:67-72 | an OPTIONS request runs no middleware, rethrows nothing, and ends with status 200 and an empty body |
| `Api.ThrowStopsPipeline` | src/api.ts:75-95 | when middleware i is the first to throw, exactly i + 1 middlewares run. In test mode the value is rethrown and the response keeps only the CORS headers; otherwise the response is the catch block's error reply |
| `Api.FirstThrowAgree` | src/api.ts:75-76 | two pipelines that agree up to a middleware that throws have the same first throw |
| `Api.LaterMiddlewaresIrrelevant` | src/api.ts:75-92 | whatever follows a middleware that throws has no effect on the outcome |
| `Api.SameThrowSameOutcome` | src/api.ts:92-121 | the outcome of a failing run depends only on where the first throw is and what it threw |
| `Api.PostIsCreated` | src/api.ts:78-79 | a POST whose middlewares all return gets 201, whatever the value |
| `Api.EarlierValuesDiscarded` | src/api.ts:76-77 | when every middleware returns, only the last one's value affects the outcome |
| `Api.NullIsNoContentJson` | src/api.ts:81-84 | a GET whose last middleware returns null gets 204 with the JSON body null |
| `Api.ExactlyOneResponse` | src/api.ts:67-124 | each invocation writes exactly one body, except when it rethrows or has no middleware. It rethrows exactly in test mode, for a non-OPTIONS request where some middleware throws |
| `Api.InvokedPrefix` | src/api.ts:75-76 | outside a preflight, the middlewares called are those up to and including the first throw, and all but the last of them returned |
| `Guard.MethodValue` | src/guard.ts:9 | an optional method is falsy exactly when it is absent or empty, as `!req.method` tests |
| `Guard.UpperAll` | src/guard.ts:14 | `methods.map(toUpperCase)` builds the list of the upper-cased entries, one for each entry, in order |
| `Guard.AllowMethods` | src/guard.ts:7-18 | a missing or empty method fails with the generic Error. Otherwise the request passes exactly when it is OPTIONS or equals some upper-cased allow-list entry. Every other request fails with MethodNotAllowedException |
| `Guard.AllowMethodsIsCaseSensitiveOnRequest` | src/guard.ts:12-15 | with 'GET' listed, 'GET' passes and 'get' is refused with 405: the request method is not upper-cased |
| `Guard.Request.RequireAuth` | src/guard.ts:27-39 | in test mode it passes and leaves `req.auth` unchanged. A resolved identity becomes `req.auth`. Any resolver failure becomes UnauthorizedException and leaves `req.auth` unchanged |
| `Guard.FirstMatch` | src/guard.ts:53-67 | finds the first slot whose method equals the request method: no earlier slot matches, and the one found does (or none does) |
| `Guard.GetRequiredScope` | src/guard.ts:41-68 | with no first method it returns the first scope. Otherwise the first matching slot decides. A match on slot 1 returns its scope even when absent. A match on slot 2 or 3 returns its scope, or fails when that scope is absent or falsy. No match returns undefined |
| `Guard.RequiredScopeIsGiven` | src/guard.ts:41-68 | the selected scope is one of the three given scopes or undefined, and the only error the selection raises is the configuration error |
| `Guard.RequireScope` | src/guard.ts:70-104 | in test mode it passes. A missing method fails with the generic Error. The upper-cased method selects the scope, and a selection error propagates. A falsy scope passes. Otherwise a resolver failure propagates, and the request passes exactly when the scope is among the granted ones, else failing with ForbiddenException |
| `Guard.RequireScopeIgnoresGrantedWhenNotRequired` | src/guard.ts:96-99 | when no scope is required, the granted scopes are never consulted |
| `Guard.RequireScopeIgnoresCase` | src/guard.ts:84-88 | the request method's case never changes the scope guard's result |
| `Guard.RequireScopePassesOnlyIfGranted` | src/guard.ts:84-102 | outside test mode, a request passes only with a method for which no scope is required, or whose required scope the caller holds |
| `Scenarios.UpperGetPost` | src/guard.ts:14 | the allow-list ['GET', 'POST'] upper-cases to itself |
| `Scenarios.AllowGetPostPasses` | src/guard.ts:12-17 | `allowMethods('GET', 'POST')` lets GET, POST and OPTIONS through |
| `Scenarios.AllowGetPostRefuses` | src/guard.ts:9-17 | `allowMethods('GET', 'POST')` refuses DELETE with 405 and a missing method with the generic Error |
| `Scenarios.RefusedMethodResponse` | src/api.ts:96-101 | a DELETE refused by the allow-list gets 405 with body {error: 'Method Not Allowed', message: 'Internal Server Error', status: 405}, and nothing after the guard runs |
| `Scenarios.UnconditionalScope` | src/guard.ts:50-52 | a scope given without any method is required for every method |
| `Scenarios.PerMethodScopes` | src/guard.ts:53-67 | with (A, 'GET', B, 'POST'), a PUT needs no scope, and a GET (in any case) without A is forbidden |
| `Scenarios.UnauthorizedRequest` | src/guard.ts:34-38 | a rejected identity resolver yields a 401 response whose message is 'Unauthorized' |
| `Scenarios.AuthenticatedGet` | src/guard.ts:35 | an authenticated GET returning a non-empty string gets 200 with that string, and the caller's identity is attached to the request |

## Left out

- Promises and `await`: each middleware, guard or resolver call is represented only by how it completes, and calls run one after another.
- Side effects of middlewares on the request or response: the handler passes `res` to every middleware, but the model's middlewares only return or throw.
- Reading `process.env.NODE_ENV`: test mode is an explicit boolean parameter.
- `console.error` logging, which has no effect on the response.
- The Next.js request and response types, header transport and JSON encoding. Headers and header values are tags mapped to their wire text by `Api.Name` and `Api.Wire`. What happens when a body is written twice is not modelled; the model only counts the writes.
- Zod internals: a `ZodError` carries an opaque `issues` value.
- The resolvers `getUserIdFromReq` and `getUserScopes` are foreign calls. Their answers are inputs, a success value or a failure, and a failure of `getUserScopes` propagates unchanged.
- The `Method` type from `src/types` is not part of this model; methods are strings. The re-export of `ForbiddenException` through `src/index` is not part of this model either.
- `Js.ToUpperCase`: does not model Unicode case mapping, only the ASCII letters a–z. Full `toUpperCase` can change a string's length (for example 'ß' becomes 'SS').
- JavaScript numbers are integers here: NaN, -0 and fractions are left out, so truthiness of a number is "non-zero". Functions, symbols and bigints are left out of `JsValue`, together with their `typeof` results.
- `Exceptions.Kind`: the exception classes are a closed set of the eight classes `src/api.ts` declares. A user-defined subclass of the exported `HttpException` (a 402, say) is not modelled. Neither is an exception whose public `status`, `error` or `message` field is reassigned after construction, though the catch block would render such fields as they are.
- `Api.ErrorReply`: its status range 400..500 holds only for the eight declared classes; the catch block itself renders any `status` an `HttpException` carries.
- `Guard.RequireScope`: `scopes.includes` compares objects by identity, but the model compares `JsValue`s structurally. The two agree for strings and the other primitives the model has.
- The builders (`allowMethods(...)`, `buildRequireAuth(resolver)`, `buildRequireScope(resolver)(...)`) return closures. The model gives their configuration and the request data to one function or method instead.
