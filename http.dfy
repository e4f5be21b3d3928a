/**
 * The authorization policy of the API client (src/api/http.ts): the request
 * interceptor that attaches the bearer header, and the response-error
 * interceptor that decides between showing a message, calling the failure
 * callback, refreshing the token and re-sending the request once.
 *
 * The policy itself is the pure function `Decide`; `OnResponseError` is the
 * interceptor, which also marks the request as retried and installs the new
 * header on the request configuration it was given. Awaited calls are
 * parameters: the outcome of the refresh, and whether a failure callback was
 * supplied at all.
 */
module Http {
  import opened Js

  const REFRESH_PATH: string := "/auth/refresh"
  const NETWORK_ERROR: string := "网络错误"
  const REQUEST_FAILED: string := "请求失败"
  const BEARER: string := "Bearer "

  /** `typeof config.url === 'string' && config.url.includes('/auth/refresh')` */
  predicate IsRefreshRequest(url: Option<string>) {
    url.Some? && Contains(url.value, REFRESH_PATH)
  }

  /** The request interceptor attaches a header for a truthy token, except on the refresh call. */
  predicate ShouldAttach(url: Option<string>, token: Option<string>) {
    Present(token) && !IsRefreshRequest(url)
  }

  /** The per-request configuration the interceptors see and update. */
  class RequestConfig {
    var url: Option<string>
    /** The request headers; a missing header object is the empty map. */
    var headers: map<string, string>
    /** `_retry`: set once the request has been through a refresh. */
    var retry: bool
    /** `suppressGlobalMessage`, any JavaScript value. */
    var suppressGlobalMessage: JsValue

    constructor (url: Option<string>, headers: map<string, string>, suppressGlobalMessage: JsValue)
      ensures this.url == url && this.headers == headers && !retry
      ensures this.suppressGlobalMessage == suppressGlobalMessage
    {
      this.url := url;
      this.headers := headers;
      this.retry := false;
      this.suppressGlobalMessage := suppressGlobalMessage;
    }

    /** The fields the response policy reads. */
    function View(): ConfigView
      reads this
    {
      ConfigView(url, retry, suppressGlobalMessage)
    }
  }

  /**
   * The request interceptor: for a truthy token and a URL that is not the
   * refresh call, `Authorization` becomes `Bearer <token>`; otherwise the
   * request is left alone.
   */
  method AttachAuthorization(config: RequestConfig, token: Option<string>)
    modifies config`headers
    ensures ShouldAttach(config.url, token) ==>
      config.headers == old(config.headers)["Authorization" := BEARER + token.value]
    ensures !ShouldAttach(config.url, token) ==> config.headers == old(config.headers)
  {
    var isRefreshRequest := config.url.Some? && Contains(config.url.value, REFRESH_PATH);
    if Present(token) && !isRefreshRequest {
      config.headers := config.headers["Authorization" := BEARER + token.value];
    }
  }

  /** The fields of a request configuration that the response policy reads. */
  datatype ConfigView = ConfigView(url: Option<string>, retry: bool, suppressGlobalMessage: JsValue)

  /** An HTTP response: its status and the `message` field of its body (Undefined when absent). */
  datatype Response = Response(status: int, dataMessage: JsValue)

  /** An AxiosError: maybe a response, and its own message text. */
  datatype AxiosFailure = AxiosFailure(response: Option<Response>, message: string)

  /** How the awaited `refreshAccessToken()` settled. */
  datatype RefreshResult = Refreshed(token: Option<string>) | RefreshThrew(error: string)

  /** The side effects of the interceptor, in the order they happen. */
  datatype Effect =
    | ShowError(text: JsValue)
    | CallFailureCallback
    | CallRefresh
    | Redispatch(authorization: string)

  /** How the interceptor's promise settles. */
  datatype Verdict =
    | RejectOriginal
    | RejectRefreshError(error: string)
    | Retried

  datatype Decision = Decision(effects: seq<Effect>, verdict: Verdict)

  /** `message.error(...)` effects in a list. */
  function Messages(effects: seq<Effect>): nat {
    if effects == [] then 0
    else (if effects[0].ShowError? then 1 else 0) + Messages(effects[1..])
  }

  lemma {:induction false} NoMessages(effects: seq<Effect>)
    requires forall i | 0 <= i < |effects| :: !effects[i].ShowError?
    ensures Messages(effects) == 0
  {
    if effects != [] {
      NoMessages(effects[1..]);
    }
  }

  /** The failure callback is optional (`ctx.onRefreshFailed?.()`). */
  function Callback(hasCallback: bool): seq<Effect> {
    if hasCallback then [CallFailureCallback] else []
  }

  /** `data.message || error.message || '请求失败'` */
  function ErrorText(response: Response, errorMessage: string): (t: JsValue)
    ensures Truthy(t)
    ensures Truthy(response.dataMessage) ==> t == response.dataMessage
    ensures !Truthy(response.dataMessage) && errorMessage != "" ==> t == Str(errorMessage)
    ensures !Truthy(response.dataMessage) && errorMessage == "" ==> t == Str(REQUEST_FAILED)
  {
    if Truthy(response.dataMessage) then response.dataMessage
    else if errorMessage != "" then Str(errorMessage)
    else Str(REQUEST_FAILED)
  }

  /** Whether a 401 on this request may start a refresh. */
  predicate MayRefresh(status: int, config: ConfigView) {
    status == 401 && !config.retry && !IsRefreshRequest(config.url)
  }

  /** Whether the generic error message is shown for a response. */
  predicate ShowsMessage(status: int, config: ConfigView) {
    config.suppressGlobalMessage != Bool(true) && status != 400 && status != 401
  }

  /**
   * The response-error policy. The effects are listed in the order the
   * interceptor performs them.
   */
  function Decide(failure: AxiosFailure, config: Option<ConfigView>, refresh: RefreshResult, hasCallback: bool): (d: Decision)
    // A failure without response or configuration: one network message, the original error, no refresh.
    ensures failure.response.None? || config.None? ==>
      d == Decision([ShowError(Str(if failure.message != "" then failure.message else NETWORK_ERROR))], RejectOriginal)
    // A refresh is requested exactly for a first 401 on a request that is not the refresh call.
    ensures CallRefresh in d.effects <==>
      failure.response.Some? && config.Some? && MayRefresh(failure.response.value.status, config.value)
    // At most one message, and one exactly when there is no response or the status calls for it.
    ensures Messages(d.effects) <= 1
    ensures Messages(d.effects) == 1 <==>
      failure.response.None? || config.None? || ShowsMessage(failure.response.value.status, config.value)
    // The request is re-sent only after a refresh that produced a truthy token, with that token.
    ensures d.verdict == Retried <==>
      failure.response.Some? && config.Some? && MayRefresh(failure.response.value.status, config.value)
      && refresh.Refreshed? && Present(refresh.token)
    ensures d.verdict == Retried ==> d.effects == [CallRefresh, Redispatch(BEARER + refresh.token.value)]
    // A refresh that throws rejects with its own error, after the callback.
    ensures d.verdict.RejectRefreshError? <==>
      failure.response.Some? && config.Some? && MayRefresh(failure.response.value.status, config.value)
      && refresh.RefreshThrew?
    ensures d.verdict.RejectRefreshError? ==>
      d.verdict.error == refresh.error && d.effects == [CallRefresh] + Callback(hasCallback)
    // Otherwise the original error is rejected.
    ensures !d.verdict.Retried? && !d.verdict.RejectRefreshError? ==> d.verdict == RejectOriginal
    // 400 only calls the callback.
    ensures failure.response.Some? && config.Some? && failure.response.value.status == 400 ==>
      d == Decision(Callback(hasCallback), RejectOriginal)
  {
    if failure.response.None? || config.None? then
      Decision([ShowError(Str(if failure.message != "" then failure.message else NETWORK_ERROR))], RejectOriginal)
    else
      var response := failure.response.value;
      var cfg := config.value;
      var before := if response.status == 400 then Callback(hasCallback) else [];
      if response.status == 401 then
        var d :=
          if !cfg.retry && !IsRefreshRequest(cfg.url) then
            match refresh
            case RefreshThrew(e) => Decision([CallRefresh] + Callback(hasCallback), RejectRefreshError(e))
            case Refreshed(token) =>
              if Present(token) then Decision([CallRefresh, Redispatch(BEARER + token.value)], Retried)
              else Decision([CallRefresh] + Callback(hasCallback), RejectOriginal)
          else Decision(Callback(hasCallback), RejectOriginal);
        NoMessages(d.effects);
        d
      else
        var shown := if ShowsMessage(response.status, cfg) then [ShowError(ErrorText(response, failure.message))] else [];
        Decision(before + shown, RejectOriginal)
  }

  /**
   * Once a request is marked as retried, a later 401 on it never starts a
   * refresh and never re-sends it: each request is retried at most once.
   */
  lemma RetriedAtMostOnce(failure: AxiosFailure, url: Option<string>, suppress: JsValue, refresh: RefreshResult, hasCallback: bool)
    ensures var d := Decide(failure, Some(ConfigView(url, true, suppress)), refresh, hasCallback);
      CallRefresh !in d.effects && d.verdict != Retried
  {
  }

  /**
   * The failure callback runs exactly for a 400, and for a 401 that did not
   * end in a re-sent request, when a callback was supplied.
   */
  lemma CallbackCases(failure: AxiosFailure, config: Option<ConfigView>, refresh: RefreshResult, hasCallback: bool)
    ensures var d := Decide(failure, config, refresh, hasCallback);
      CallFailureCallback in d.effects <==>
        hasCallback && failure.response.Some? && config.Some?
        && (failure.response.value.status == 400
            || (failure.response.value.status == 401 && d.verdict != Retried))
  {
    var d := Decide(failure, config, refresh, hasCallback);
    if failure.response.Some? && config.Some? && failure.response.value.status == 401 {
      if MayRefresh(failure.response.value.status, config.value) && refresh.Refreshed? && Present(refresh.token) {
        assert d.effects == [CallRefresh, Redispatch(BEARER + refresh.token.value)];
      }
    }
  }

  /** The text of the one message shown for a response that calls for it. */
  lemma MessageText(failure: AxiosFailure, config: ConfigView, refresh: RefreshResult, hasCallback: bool)
    requires failure.response.Some? && ShowsMessage(failure.response.value.status, config)
    ensures Decide(failure, Some(config), refresh, hasCallback).effects
      == [ShowError(ErrorText(failure.response.value, failure.message))]
  {
  }

  /**
   * The response-error interceptor. It reads the configuration, marks it as
   * retried before refreshing, and installs the new bearer header before
   * re-sending; otherwise the configuration is untouched.
   */
  method OnResponseError(failure: AxiosFailure, config: RequestConfig?, refresh: RefreshResult, hasCallback: bool)
    returns (d: Decision)
    modifies config
    ensures d == Decide(failure, if config == null then None else Some(old(config.View())), refresh, hasCallback)
    ensures config != null && CallRefresh in d.effects ==>
      config.retry && config.url == old(config.url) && config.suppressGlobalMessage == old(config.suppressGlobalMessage)
    ensures config != null && d.verdict == Retried ==>
      config.headers == old(config.headers)["Authorization" := BEARER + refresh.token.value]
    ensures config != null && d.verdict != Retried ==> config.headers == old(config.headers)
    ensures config != null && CallRefresh !in d.effects ==> unchanged(config)
  {
    if failure.response.None? || config == null {
      var text := if failure.message != "" then failure.message else NETWORK_ERROR;
      return Decision([ShowError(Str(text))], RejectOriginal);
    }
    var response := failure.response.value;
    var effects: seq<Effect> := [];
    if response.status == 400 && hasCallback {
      effects := effects + [CallFailureCallback];
    }
    var suppressMessage := config.suppressGlobalMessage == Bool(true);
    var isRefreshRequest := config.url.Some? && Contains(config.url.value, REFRESH_PATH);
    if response.status == 401 {
      if !config.retry && !isRefreshRequest {
        config.retry := true;
        effects := effects + [CallRefresh];
        match refresh {
          case RefreshThrew(e) =>
            if hasCallback {
              effects := effects + [CallFailureCallback];
            }
            return Decision(effects, RejectRefreshError(e));
          case Refreshed(token) =>
            if Present(token) {
              config.headers := config.headers["Authorization" := BEARER + token.value];
              effects := effects + [Redispatch(BEARER + token.value)];
              return Decision(effects, Retried);
            }
        }
      }
      if hasCallback {
        effects := effects + [CallFailureCallback];
      }
    }
    if !suppressMessage && response.status != 400 && response.status != 401 {
      effects := effects + [ShowError(ErrorText(response, failure.message))];
    }
    d := Decision(effects, RejectOriginal);
  }

  /**
   * A request that fails with 401, is refreshed and re-sent, and fails with
   * 401 again: the second failure starts no refresh, so one request causes at
   * most one refresh.
   */
  method RepeatedUnauthorized(config: RequestConfig, first: AxiosFailure, second: AxiosFailure, refresh1: RefreshResult, refresh2: RefreshResult, hasCallback: bool)
    returns (d1: Decision, d2: Decision)
    modifies config
    ensures CallRefresh in d1.effects ==> CallRefresh !in d2.effects && d2.verdict != Retried
  {
    d1 := OnResponseError(first, config, refresh1, hasCallback);
    d2 := OnResponseError(second, config, refresh2, hasCallback);
    if CallRefresh in d1.effects {
      RetriedAtMostOnce(second, config.url, config.suppressGlobalMessage, refresh2, hasCallback);
    }
  }
}
