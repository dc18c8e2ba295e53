/** Error descriptions, kept as unresolved message keys with their arguments: the
    localisation bundles that turn a key into display text are not part of the model. */
module Messages {

  /** A user-facing message: either a bundle key with its arguments (a call to
      `message(key, args...)`), or a string used verbatim (the protocol reason phrase
      of an HTTP status that has no key of its own). */
  datatype Message =
    | Localised(key: string, args: seq<string>)
    | Verbatim(text: string)

  /** `ErrorInfo(message)`: the description attached to a wrapped failure. */
  datatype ErrorInfo = ErrorInfo(message: Message)

  const UnsupportedLanguageKey := "error.unsupportedLanguage"
  const NetworkConnectionKey := "error.network.connection"
  const NetworkKey := "error.network"
  const NetworkTimeoutKey := "error.network.timeout"
  const TextTooLongKey := "error.text.too.long"
  const TooManyRequestsKey := "error.too.many.requests"
  const InvalidAccountKey := "error.invalidAccount"
  const BadRequestKey := "error.bad.request"
  const ServiceUnavailableKey := "error.service.unavailable"
  const SystemErrorKey := "error.systemError"
  const IoExceptionKey := "error.io.exception"

  /** A key that takes no arguments. */
  function Plain(key: string): Message {
    Localised(key, [])
  }
}

/** The HTTP status codes the classifier gives their own message. */
module StatusCodes {

  /** 400 Bad Request, section 15.5.1 of RFC 9110. */
  const BadRequest := 400
  /** 403 Forbidden, section 15.5.4 of RFC 9110. */
  const Forbidden := 403
  /** 413 Content Too Large (formerly Request Entity Too Large), section 15.5.14 of RFC 9110. */
  const ContentTooLarge := 413
  /** 429 Too Many Requests, section 4 of RFC 6585. */
  const TooManyRequests := 429
  /** 500 Internal Server Error, section 15.6.1 of RFC 9110. */
  const InternalServerError := 500
  /** 503 Service Unavailable, section 15.6.4 of RFC 9110. */
  const ServiceUnavailable := 503
}
