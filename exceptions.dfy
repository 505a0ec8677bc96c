/** The HTTP exception family of `src/api.ts` and the values a middleware may throw. */
module Exceptions {
  import opened Wrappers
  import opened Js

  /** The class an exception was constructed from: the base `HttpException` or one of its subclasses. */
  datatype Kind =
    | Base
    | BadRequest
    | Unauthorized
    | Forbidden
    | NotFound
    | MethodNotAllowed
    | Conflict
    | UnprocessableEntity

  /** The `status` field each class initialises. */
  function StatusOf(k: Kind): (s: int)
    ensures 400 <= s <= 500
    ensures s == 500 <==> k == Base
  {
    match k
    case Base => 500
    case BadRequest => 400
    case Unauthorized => 401
    case Forbidden => 403
    case NotFound => 404
    case MethodNotAllowed => 405
    case Conflict => 409
    case UnprocessableEntity => 422
  }

  /** The `error` field each class initialises. */
  function LabelOf(k: Kind): (l: string)
    ensures l != ""
  {
    match k
    case Base => "Internal Server Error"
    case BadRequest => "Bad Request"
    case Unauthorized => "Unauthorized"
    case Forbidden => "Forbidden"
    case NotFound => "Not Found"
    case MethodNotAllowed => "Method Not Allowed"
    case Conflict => "Conflict"
    case UnprocessableEntity => "Unprocessable Entity"
  }

  /** The classes that declare a constructor of their own; the others inherit the base one. */
  predicate DeclaresConstructor(k: Kind) {
    k.Base? || k.Unauthorized? || k.NotFound? || k.UnprocessableEntity?
  }

  /** The message used when the constructor gets no argument: the default of the
      nearest declared constructor. */
  function DefaultMessage(k: Kind): (m: string)
    ensures m != ""
    ensures DeclaresConstructor(k) ==> m == LabelOf(k)
    ensures !DeclaresConstructor(k) ==> m == LabelOf(Base)
  {
    match k
    case Base => "Internal Server Error"
    case Unauthorized => "Unauthorized"
    case NotFound => "Not Found"
    case UnprocessableEntity => "Unprocessable Entity"
    case _ => "Internal Server Error"
  }

  /** An exception object: its class and its `message`; `status` and `error` follow from the class. */
  datatype HttpException = HttpException(kind: Kind, message: string) {
    function Status(): int {
      StatusOf(kind)
    }
    function Error(): string {
      LabelOf(kind)
    }
  }

  /** `new K(message)`; `None` stands for a missing or `undefined` argument. */
  function New(k: Kind, message: Option<string>): (e: HttpException)
    ensures e.kind == k
    ensures message.Some? ==> e.message == message.value
    ensures message.None? ==> e.message == DefaultMessage(k)
  {
    HttpException(k, message.GetOr(DefaultMessage(k)))
  }

  /** Distinct classes carry distinct status codes, so the status identifies the class. */
  lemma StatusIdentifiesKind(k1: Kind, k2: Kind)
    requires StatusOf(k1) == StatusOf(k2)
    ensures k1 == k2
  {
  }

  /** Passing a message changes the message and nothing else. */
  lemma MessageOnlyChangesMessage(k: Kind, m1: Option<string>, m2: Option<string>)
    ensures New(k, m1).Status() == New(k, m2).Status() == StatusOf(k)
    ensures New(k, m1).Error() == New(k, m2).Error() == LabelOf(k)
  {
  }

  /** The default message is the class's own label exactly for the classes that declare a
      constructor; the others fall back to the base class's label. */
  lemma DefaultMessageIsLabel(k: Kind)
    ensures DefaultMessage(k) == LabelOf(k) <==> DeclaresConstructor(k)
    ensures !DeclaresConstructor(k) ==> DefaultMessage(k) == LabelOf(Base)
  {
  }

  /** What a `throw` or a rejected promise can carry, told apart the way the handler's
      `instanceof` tests tell them apart: an `HttpException` (any subclass), a `ZodError`
      with its issues, any other `Error` with its message, or a value that is not an `Error`. */
  datatype Thrown =
    | Http(exception: HttpException)
    | ZodError(issues: JsValue)
    | OtherError(message: string)
    | NonError(value: JsValue)

  /** How a call into a middleware, guard or resolver ends: it returns (resolves with) a value or throws (rejects). */
  datatype Completion = Returned(value: JsValue) | Threw(error: Thrown)

  /** The completion of an `async` function that returns nothing. */
  const DONE: Completion := Returned(Undefined)
}
