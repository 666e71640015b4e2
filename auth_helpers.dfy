/** `src/utils/authHelpers.ts`: the error-message fallback chain and token persistence. */
module AuthHelpers {
  import opened Wrappers
  import opened Text
  import opened Storage

  /** The parts of a caught error the helper looks at: `error.response?.data?.message`
      (None when any link of that chain is missing) and `error.message`. */
  datatype ApiError = ApiError(responseMessage: Option<string>, message: Option<string>)

  const DefaultApiError: string := "An error occurred"

  /** `handleApiError`: the server's message when truthy, else the error's own message when
      truthy, else the generic text; never the empty string. */
  function HandleApiError(error: ApiError): (r: string)
    ensures r != ""
    ensures Truthy(error.responseMessage) ==> r == error.responseMessage.value
    ensures !Truthy(error.responseMessage) && Truthy(error.message) ==> r == error.message.value
    ensures !Truthy(error.responseMessage) && !Truthy(error.message) ==> r == DefaultApiError
  {
    if Truthy(error.responseMessage) then error.responseMessage.value
    else OrElse(error.message, DefaultApiError)
  }

  /** `setAuthToken`: a truthy token is stored under 'token'; null or "" removes that key.
      No other key changes. */
  method SetAuthToken(storage: LocalStorage, token: Option<string>)
    modifies storage
    ensures Truthy(token) ==> storage.entries == old(storage.entries)[TokenKey := token.value]
    ensures !Truthy(token) ==> storage.entries == old(storage.entries) - {TokenKey}
    ensures storage.GetItem(TokenKey) == if Truthy(token) then token else None
    ensures forall k :: k != TokenKey ==> storage.GetItem(k) == old(storage.GetItem(k))
  {
    if Truthy(token) {
      storage.SetItem(TokenKey, token.value);
    } else {
      storage.RemoveItem(TokenKey);
    }
  }
}
