/** `components/ErrorHandler`: the message shown for a failed request, the
    message `handleError` chooses, and the bounded retry of a request. */
module ErrorHandler {
  import opened Wrappers

  /** What an axios error carries: the response (its status and the
      server's `message`, if any) and the error's own `message`. */
  datatype ErrorResponse = ErrorResponse(status: int, serverMessage: Option<string>)
  datatype ApiError = ApiError(response: Option<ErrorResponse>, message: Option<string>)

  predicate Truthy(v: Option<string>) {
    v.Some? && v.value != ""
  }

  /** `v || fallback`. */
  function OrElse(v: Option<string>, fallback: string): (r: string)
    ensures Truthy(v) ==> r == v.value
    ensures !Truthy(v) ==> r == fallback
  {
    if Truthy(v) then v.value else fallback
  }

  const GenericText := "오류가 발생했습니다. 다시 시도해주세요."
  const NetworkText := "네트워크 연결을 확인해주세요."

  /** The fixed text of each status; the server's message is preferred
      over it for 400, 404, 409 and 422 only. */
  function StatusText(status: int): string {
    match status
    case 400 => "잘못된 요청입니다. 입력 정보를 확인해주세요."
    case 401 => "로그인이 필요하거나 인증 정보가 만료되었습니다."
    case 403 => "이 작업을 수행할 권한이 없습니다."
    case 404 => "요청하신 정보를 찾을 수 없습니다."
    case 409 => "요청이 현재 상태와 충돌합니다."
    case 422 => "입력 정보를 처리할 수 없습니다. 다시 확인해주세요."
    case 500 => "서버 오류가 발생했습니다. 잠시 후 다시 시도해주세요."
    case _ => GenericText
  }

  /** `getErrorMessage(error)`, with `None` for a null error. */
  function GetErrorMessage(error: Option<ApiError>): (r: string)
    ensures error.Some? && error.value.response.Some? && error.value.response.value.status in {401, 403, 500} ==>
              r == StatusText(error.value.response.value.status)
    ensures error.Some? && error.value.response.Some? && error.value.response.value.status !in {401, 403, 500} ==>
              r == OrElse(error.value.response.value.serverMessage, StatusText(error.value.response.value.status))
    ensures error.Some? && error.value.response.None? && error.value.message == Some("Network Error") ==> r == NetworkText
    ensures error.Some? && error.value.response.None? && error.value.message != Some("Network Error") ==>
              r == OrElse(error.value.message, GenericText)
    ensures error.None? ==> r == GenericText
    ensures r != ""
  {
    if error.Some? && error.value.response.Some? then
      var response := error.value.response.value;
      if response.status in {401, 403, 500} then StatusText(response.status)
      else OrElse(response.serverMessage, StatusText(response.status))
    else if error.Some? && error.value.message == Some("Network Error") then NetworkText
    else if error.Some? then OrElse(error.value.message, GenericText)
    else GenericText
  }

  /** For 401, 403 and 500 the server's message makes no difference. */
  lemma FixedStatusIgnoresServer(status: int, a: Option<string>, b: Option<string>, m: Option<string>, n: Option<string>)
    requires status in {401, 403, 500}
    ensures GetErrorMessage(Some(ApiError(Some(ErrorResponse(status, a)), m)))
            == GetErrorMessage(Some(ApiError(Some(ErrorResponse(status, b)), n)))
  {
  }

  /** `handleError(error, customMessage)`: the custom message when given,
      otherwise `getErrorMessage`; never empty. */
  function HandleError(error: Option<ApiError>, customMessage: Option<string>): (r: string)
    ensures Truthy(customMessage) ==> r == customMessage.value
    ensures !Truthy(customMessage) ==> r == GetErrorMessage(error)
    ensures r != ""
  {
    OrElse(customMessage, GetErrorMessage(error))
  }

  const DefaultMaxRetries := 3

  datatype Outcome = Resolved(value: string) | Rejected(error: ApiError)

  function Max(a: int, b: int): int { if a < b then b else a }

  /** `retryRequest(apiCall, maxRetries)`: `outcomes(k)` is how the k-th
      call of `apiCall` (counting from 0) settles. The call is repeated
      while it fails and fewer than `maxRetries` retries were made; the
      result is the first success or, after `maxRetries + 1` calls, the last
      error. */
  method RetryRequest(outcomes: nat -> Outcome, maxRetries: int) returns (calls: nat, result: Outcome)
    ensures 1 <= calls <= Max(maxRetries, 0) + 1
    ensures result == outcomes(calls - 1)
    ensures forall k :: 0 <= k < calls - 1 ==> outcomes(k).Rejected?
    ensures result.Rejected? ==> calls == Max(maxRetries, 0) + 1
  {
    var retryCount: nat := 0;
    result := outcomes(0);
    calls := 1;
    while result.Rejected? && retryCount < maxRetries
      invariant calls == retryCount + 1
      invariant retryCount <= Max(maxRetries, 0)
      invariant result == outcomes(retryCount)
      invariant forall k :: 0 <= k < retryCount ==> outcomes(k).Rejected?
      decreases maxRetries - retryCount
    {
      retryCount := retryCount + 1;
      result := outcomes(retryCount);
      calls := calls + 1;
    }
  }
}
