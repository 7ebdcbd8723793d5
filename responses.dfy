/** The HTTP responses the controllers return (italia-ts-commons responses). */
module Responses {
  datatype Response<T> =
    | Forbidden
    | NotFound(title: string, detail: string)
    | Internal(detail: string)
    | Success(body: T)
}
