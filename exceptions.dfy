/** The API error taxonomy of backend/app/utils/exceptions.py: a base
    exception carrying a message and an HTTP status code, and two subclasses
    that fix the code. */
module Exceptions {

  /** The three exception classes. `ApiException` carries the status code it
      was given; the subclasses carry only their message. */
  datatype ApiError =
    | ApiException(msg: string, code: int)
    | ValidationError(msg: string)
    | ResourceNotFound(msg: string)

  /** `APIException(message, status_code=400)`. */
  function NewApiException(message: string, statusCode: int := 400): (e: ApiError)
    ensures Message(e) == message && StatusCode(e) == statusCode
  {
    ApiException(message, statusCode)
  }

  /** The `status_code` attribute. */
  function StatusCode(e: ApiError): (code: int)
    ensures e.ValidationError? ==> code == 400
    ensures e.ResourceNotFound? ==> code == 404
    ensures e.ApiException? ==> code == e.code
  {
    match e
    case ApiException(_, c) => c
    case ValidationError(_) => 400
    case ResourceNotFound(_) => 404
  }

  /** The `message` attribute, which is also what `str(e)` shows. */
  function Message(e: ApiError): string
  {
    e.msg
  }

  /** Every error seen as its base class: the base exception built with the
      same message and status code (the subclasses call the base constructor). */
  function AsApiException(e: ApiError): (base: ApiError)
    ensures base.ApiException?
    ensures Message(base) == Message(e) && StatusCode(base) == StatusCode(e)
  {
    ApiException(Message(e), StatusCode(e))
  }

  /** A `ValidationError` is the base exception with status 400 and a
      `ResourceNotFound` the base exception with status 404; a base
      exception built without a code has 400 as well. */
  lemma SubclassesFixTheirCode(message: string)
    ensures AsApiException(ValidationError(message)) == NewApiException(message)
    ensures AsApiException(ResourceNotFound(message)) == NewApiException(message, 404)
    ensures AsApiException(ValidationError(message)) != AsApiException(ResourceNotFound(message))
  {
  }
}
