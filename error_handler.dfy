/** The error classifier of `errorHandler.js` and the values derived from
    it. An error is the JavaScript value thrown or rejected; its `message`,
    `isNetworkError`, `status`, `statusCode` and `response` are read. */
module ErrorHandler {
  import opened JsValue

  datatype Category = Network | Auth | Validation | Api | Unknown | Recoverable

  /** The `ErrorTypes` strings. */
  function TypeName(c: Category): (name: string)
    ensures c != Network ==> name != "network_error"
    ensures c != Recoverable ==> name != "recoverable_error"
  {
    match c
    case Network => "network_error"
    case Auth => "authentication_error"
    case Validation => "validation_error"
    case Api => "api_error"
    case Unknown => "unknown_error"
    case Recoverable => "recoverable_error"
  }

  /** `error.message` can be read and, when truthy, is a string. A number,
      boolean or plain-object message has no `includes` and would throw; an
      array message has `Array.prototype.includes`, an element test rather
      than a substring test, which is not modelled. */
  predicate Readable(error: Value) {
    !Nullish(error) && (Truthy(Get(error, "message")) ==> Get(error, "message").Str?)
  }

  /** `error.message || ''` */
  function MessageText(error: Value): string
    requires Readable(error)
  {
    var m := Get(error, "message");
    if Truthy(m) then m.s else ""
  }

  predicate ContainsAny(message: string, words: seq<string>) {
    exists w | w in words :: Contains(message, w)
  }

  const NetworkWords: seq<string> := ["Network", "网络", "timeout", "ECONNABORTED", "连接", "404"]
  const AuthWords: seq<string> := ["未授权", "Unauthorized", "认证已过期", "token", "登录"]
  const ValidationWords: seq<string> := ["验证", "无效", "格式", "required", "必填"]

  predicate NetworkSign(error: Value)
    requires Readable(error)
  {
    ContainsAny(MessageText(error), NetworkWords) || Get(error, "isNetworkError") == Bool(true)
  }

  /** `error.status === 404 || error.statusCode === 404 || (error.response && error.response.status === 404)` */
  predicate NotFoundSign(error: Value) {
    || Get(error, "status") == Num(404)
    || Get(error, "statusCode") == Num(404)
    || (Truthy(Get(error, "response")) && Get(Get(error, "response"), "status") == Num(404))
  }

  /** `error.status || error.statusCode || message.includes('服务器')` */
  predicate ApiSign(error: Value)
    requires Readable(error)
  {
    Truthy(Get(error, "status")) || Truthy(Get(error, "statusCode")) || Contains(MessageText(error), "服务器")
  }

  /** `categorizeError`: the first test that matches decides. */
  function CategorizeError(error: Value): Category
    requires Readable(error)
  {
    var message := MessageText(error);
    if NetworkSign(error) then Network
    else if ContainsAny(message, AuthWords) then Auth
    else if ContainsAny(message, ValidationWords) then Validation
    else if NotFoundSign(error) then Recoverable
    else if ApiSign(error) then Api
    else Unknown
  }

  /** `isRecoverableError` */
  predicate IsRecoverableError(error: Value)
    requires Readable(error)
  {
    var c := CategorizeError(error);
    TypeName(c) == TypeName(Network) || TypeName(c) == TypeName(Recoverable)
  }

  /** The record `handleError` returns, without its timestamp. */
  datatype ProcessedError = ProcessedError(errorType: string, message: string, originalError: Value, isRecoverable: bool)

  const UnknownErrorText := "未知错误"

  function HandleError(error: Value): (r: ProcessedError)
    requires Readable(error)
    ensures r.errorType == TypeName(CategorizeError(error))
    ensures r.originalError == error
    ensures r.message == if MessageText(error) == "" then UnknownErrorText else MessageText(error)
    ensures r.isRecoverable <==> IsRecoverableError(error)
  {
    var errorType := TypeName(CategorizeError(error));
    var m := Get(error, "message");
    ProcessedError(errorType, if Truthy(m) then m.s else UnknownErrorText, error,
      errorType == TypeName(Network) || errorType == TypeName(Recoverable))
  }

  const NetworkText := "网络连接异常，正在使用本地数据继续工作"
  const RecoverableText := "服务暂时不可用，正在使用本地数据继续工作"
  const ExpiredText := "您的登录状态已过期，请重新登录"
  const AuthFailedText := "认证失败，请重新登录"
  const ApiText := "服务器处理请求时出错，请稍后再试"
  const DefaultText := "操作失败，请稍后重试"

  /** The fixed texts `getUserFriendlyMessage` chooses from. */
  const FixedTexts: set<string> := {NetworkText, RecoverableText, ExpiredText, AuthFailedText, ApiText, DefaultText}

  /** `getUserFriendlyMessage` */
  function GetUserFriendlyMessage(error: Value): (text: string)
    requires Readable(error)
    ensures CategorizeError(error) == Validation ==> text == MessageText(error)
    ensures CategorizeError(error) != Validation ==> text in FixedTexts
    ensures CategorizeError(error) == Auth ==> (text == ExpiredText <==> Contains(MessageText(error), "过期"))
  {
    var message := MessageText(error);
    match CategorizeError(error)
    case Network => NetworkText
    case Recoverable => RecoverableText
    case Auth => if Contains(message, "过期") then ExpiredText else AuthFailedText
    case Validation => message
    case Api => ApiText
    case Unknown => DefaultText
  }

  // ---------------------------------------------------------------------------

  /** `isRecoverableError` holds exactly for the network and recoverable
      categories. */
  lemma RecoverableCategories(error: Value)
    requires Readable(error)
    ensures IsRecoverableError(error) <==> CategorizeError(error) in {Network, Recoverable}
  {
  }

  /** A message mentioning `404` is a network error, whatever the status
      says: the message test comes before the status test. */
  lemma Message404IsNetwork(error: Value)
    requires Readable(error) && Contains(MessageText(error), "404")
    ensures CategorizeError(error) == Network
  {
    assert "404" in NetworkWords;
  }

  /** A 404 status makes an error recoverable only when no message word
      claims it first. */
  lemma Status404Recoverable(error: Value)
    requires Readable(error) && NotFoundSign(error)
    ensures CategorizeError(error) == Recoverable <==>
      !NetworkSign(error) && !ContainsAny(MessageText(error), AuthWords) && !ContainsAny(MessageText(error), ValidationWords)
    ensures IsRecoverableError(error) <==>
      !ContainsAny(MessageText(error), AuthWords + ValidationWords) || NetworkSign(error)
  {
    ContainsAnyConcat(MessageText(error), AuthWords, ValidationWords);
  }

  /** A message holds a word of `a + b` exactly when it holds a word of `a`
      or one of `b`. */
  lemma ContainsAnyConcat(m: string, a: seq<string>, b: seq<string>)
    ensures ContainsAny(m, a + b) <==> ContainsAny(m, a) || ContainsAny(m, b)
  {
    if ContainsAny(m, a + b) {
      var w :| w in a + b && Contains(m, w);
      assert w in a || w in b;
    }
    if ContainsAny(m, a) {
      var w :| w in a && Contains(m, w);
      assert w in a + b;
    }
    if ContainsAny(m, b) {
      var w :| w in b && Contains(m, w);
      assert w in a + b;
    }
  }

  /** An error without a message, flag or status is unknown. */
  lemma BareErrorUnknown(error: Value)
    requires Readable(error) && !Truthy(Get(error, "message"))
    requires Get(error, "isNetworkError") != Bool(true)
    requires !Truthy(Get(error, "status")) && !Truthy(Get(error, "statusCode")) && !Truthy(Get(error, "response"))
    ensures CategorizeError(error) == Unknown
    ensures GetUserFriendlyMessage(error) == DefaultText
    ensures HandleError(error).message == UnknownErrorText
  {
    assert MessageText(error) == "";
    EmptyContainsNone(NetworkWords);
    EmptyContainsNone(AuthWords);
    EmptyContainsNone(ValidationWords);
    EmptyContainsNothing("服务器");
  }

  /** The empty message holds none of a list of non-empty words. */
  lemma EmptyContainsNone(words: seq<string>)
    requires forall w | w in words :: w != ""
    ensures !ContainsAny("", words)
  {
    forall w | w in words ensures !Contains("", w) {
      EmptyContainsNothing(w);
    }
  }

  /** The expiry message of `fetchWithRetry`'s 401 path reads as an expired
      login, unless a network word occurs in it too. */
  lemma ExpiredLogin(error: Value)
    requires Readable(error) && Contains(MessageText(error), "认证已过期") && !NetworkSign(error)
    ensures CategorizeError(error) == Auth
    ensures GetUserFriendlyMessage(error) == ExpiredText
  {
    assert "认证已过期" in AuthWords;
    assert Contains("认证已过期", "过期") by {
      ContainsAt("认证已过期", "过期", 3);
    }
    ContainsTrans(MessageText(error), "认证已过期", "过期");
  }
}
