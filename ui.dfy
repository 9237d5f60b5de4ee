/**
 * What the frontend stores share: the API client's error, and the
 * notifications they post (frontend/src/stores/useNotificationStore.ts
 * appends each one to its list; the random id and the auto-removal timer
 * are not modelled).
 */
module Ui {
  import opened Strings

  /** A failed API call: an APIClientError carries the server's message;
      any other thrown value carries none. */
  datatype ApiError = APIClientError(message: string) | OtherError

  datatype NoteKind = NoteSuccess | NoteError | NoteWarning | NoteInfo

  datatype Notification = Notification(kind: NoteKind, message: string)

  /** `error instanceof APIClientError ? error.message : fallback`. */
  function MessageOr(e: ApiError, fallback: string): string
  {
    match e
    case APIClientError(message) => message
    case OtherError => fallback
  }

  /** A JavaScript value of type `number | null` used as a condition: null
      and 0 are false. */
  predicate Truthy(n: Option<int>)
  {
    n.Some? && n.value != 0
  }
}
