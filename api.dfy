/**
 * The backend client `authAPI` (src/utils/api.js), seen from its callers: every call
 * either resolves with a value or rejects with an error object. The model treats each
 * call as an oracle whose answer is a parameter of the operation that makes it.
 */
module Api {
  import opened Wrappers

  /** The `message` field of an error response body: a string or an array of strings. */
  datatype Message = MessageText(text: string) | MessageList(items: seq<string>)

  /** An error response body (`err.response.data`). */
  datatype ResponseData = ResponseData(message: Option<Message>)

  /** A rejected call: the response body, when the error carries one, and `err.message`. */
  datatype ApiError = ApiError(responseData: Option<ResponseData>, message: string)

  /** The answer of one backend call. */
  datatype Reply<T> = Resolved(value: T) | Rejected(error: ApiError)

  /** JavaScript truthiness of a message: an empty string is falsy, an array never is. */
  predicate Truthy(m: Message)
  {
    m.MessageList? || m.text != ""
  }

  /** `err.response?.data?.message`, when it is truthy. */
  function ResponseMessage(e: ApiError): Option<Message>
  {
    match e.responseData
    case Some(ResponseData(Some(m))) => if Truthy(m) then Some(m) else None
    case _ => None
  }

  const DisabledMessage: string := "Backend authentication is disabled. Use AuthContext."

  /** The error every `authAPI` call of this repository rejects with: no response, only a message. */
  const Disabled: ApiError := ApiError(None, DisabledMessage)

  /** The answer of every `authAPI` call (register, login, logout, getProfile) in this repository. */
  function DisabledReply<T>(): Reply<T>
  {
    Rejected(Disabled)
  }
}
