/** The adapters' shared error type `ApiError` (src/utils/error.rs). */
module Errors {

  /** What a `reqwest::Error` reports, which is all the model keeps of it:
      the request could not be sent, the body could not be read, or the body
      was not the JSON the caller asked `reqwest` to decode. */
  datatype RequestFault =
    | Transport(detail: string)
    | BodyUnreadable
    | Undecodable

  datatype ApiError =
    | RequestError(fault: RequestFault)
    | EnvVarMissing(name: string)
    | InternalServerError
    | HttpError(message: string)
    | ParseError(message: string)
}
