/** The exception classes the backend raises, as one datatype. Each constructor
    stands for the Python class of the same name; `OtherException` stands for any
    exception the backend does not define itself (a library error, a KeyError). */
module Errors {
  import Text

  datatype Error =
    | AIError(message: string)
    | ConfigError(message: string)
    | ImageProcessingError(message: string)
    | AIProviderError(message: string)
    | InvalidAPIKeyError(message: string)
    | APIResponseError(message: string)
    | InvalidFileTypeError(message: string)
    | HTTPException(status: int, detail: string)
    | AppException(status: int, detail: string)
    | OtherException(message: string)
  {
    /** `str(e)`: the message the exception was raised with (Starlette renders an
        HTTPException as "<status>: <detail>"). */
    function Str(): string {
      match this
      case HTTPException(status, detail) => Text.IntToString(status) + ": " + detail
      case AppException(_, detail) => detail
      case _ => message
    }
  }
}
