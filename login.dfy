/**
 * The sign-in form (LoginScreen.kt): user name and password, a button that
 * checks them and calls `login.php`, and the error line under the button.
 */
module Login {
  import opened Wrappers
  import opened Text
  import opened Remote

  const BlankMessage := "Vui lòng nhập đầy đủ thông tin"
  const DefaultName := "Mẹ Bầu"
  const HttpPrefix := "Đăng nhập thất bại: "
  const ServerPrefix := "Lỗi từ server: "
  const NetworkMessage := "Không thể kết nối tới server. Vui lòng kiểm tra kết nối mạng."
  const UnknownPrefix := "Đã xảy ra lỗi không xác định: "

  /** `LoginResponse`. */
  datatype LoginResponse = LoginResponse(success: bool, message: string, name: Option<string>, userId: Option<int>)

  /** What `onLoginSuccess` receives: the name to greet and the user id. */
  datatype Session = Session(name: string, userId: int)

  /**
   * The message of each kind of thrown exception: an HTTP failure shows the
   * server's error body after its prefix, or else a status code that reads back
   * as the failure's code; any other exception shows its own message.
   */
  function FailureMessage(f: Failure): (m: string)
    ensures f.HttpFailure? ==> StartsWith(m, HttpPrefix)
    ensures f.HttpFailure? && f.errorBody.Some? ==>
      EndsWith(m, f.errorBody.value) && |m| == |HttpPrefix| + |f.errorBody.value|
    ensures f.HttpFailure? && f.errorBody.None? ==> StartsWith(m, HttpPrefix + ServerPrefix)
    ensures f.HttpFailure? && f.errorBody.None? && MinInt32 <= f.code <= MaxInt32 ==>
      ParseInt(m[|HttpPrefix + ServerPrefix|..]) == Some(f.code)
    ensures f.IoFailure? ==> m == NetworkMessage
    ensures f.OtherFailure? ==>
      StartsWith(m, UnknownPrefix) && EndsWith(m, f.message) && |m| == |UnknownPrefix| + |f.message|
  {
    match f
    case HttpFailure(_, code, body) =>
      var m := HttpPrefix + body.GetOr(ServerPrefix + IntToString(code));
      if body.None? && MinInt32 <= code <= MaxInt32 then
        assert m[|HttpPrefix + ServerPrefix|..] == IntToString(code);
        ParseIntOfIntToString(code);
        m
      else m
    case IoFailure(_) => NetworkMessage
    case OtherFailure(m) => UnknownPrefix + m
  }

  /** The screen's remembered state. */
  class LoginForm {
    var username: string
    var password: string
    var message: string
    var isLoading: bool

    constructor ()
      ensures username == "" && password == "" && message == "" && !isLoading
    {
      username, password := "", "";
      message := "";
      isLoading := false;
    }

    /** The error line shows when there is a message and no call is running. */
    predicate MessageVisible()
      reads this
    {
      message != "" && !isLoading
    }

    /**
     * The enabled button's `onClick`: a blank field stops with a message;
     * otherwise loading starts, the message clears and the call goes out.
     */
    method Submit() returns (send: bool)
      requires !isLoading
      modifies this`message, this`isLoading
      ensures send <==> !IsBlank(username) && !IsBlank(password)
      ensures !send ==> message == BlankMessage && !isLoading && MessageVisible()
      ensures send ==> message == "" && isLoading && !MessageVisible()
    {
      if IsBlank(username) || IsBlank(password) {
        message := BlankMessage;
        return false;
      }
      isLoading := true;
      message := "";
      send := true;
    }

    /**
     * The call's end: loading stops; a successful answer carrying a user id
     * signs in (greeting "Mẹ Bầu" when the name is missing) and leaves the
     * message alone; any other answer shows the server's message; an exception
     * shows the message of its kind.
     */
    method CompleteLogin(outcome: Outcome<LoginResponse>) returns (session: Option<Session>)
      modifies this`message, this`isLoading
      ensures !isLoading
      ensures session.Some? <==> outcome.Ok? && outcome.value.success && outcome.value.userId.Some?
      ensures session.Some? ==>
        session.value == Session(outcome.value.name.GetOr(DefaultName), outcome.value.userId.value)
        && message == old(message)
      ensures outcome.Ok? && session.None? ==> message == outcome.value.message
      ensures outcome.Fail? ==> message == FailureMessage(outcome.failure)
    {
      isLoading := false;
      session := None;
      match outcome {
        case Ok(response) =>
          if response.success && response.userId.Some? {
            session := Some(Session(response.name.GetOr(DefaultName), response.userId.value));
          } else {
            message := response.message;
          }
        case Fail(e) =>
          message := FailureMessage(e);
      }
    }
  }

  /** Every thrown exception leaves a visible, non-empty message. */
  lemma FailureMessageNonEmpty(f: Failure)
    ensures |FailureMessage(f)| > 0
  {
    match f
    case HttpFailure(_, _, _) => assert FailureMessage(f)[..|HttpPrefix|] == HttpPrefix;
    case IoFailure(_) =>
    case OtherFailure(_) => assert FailureMessage(f)[..|UnknownPrefix|] == UnknownPrefix;
  }

  /**
   * Signing in from a clean form with a successful answer leaves no message
   * on screen; a failed call after a clean submit always leaves one.
   */
  method SubmitThenComplete(form: LoginForm, outcome: Outcome<LoginResponse>) returns (session: Option<Session>)
    requires !form.isLoading && !IsBlank(form.username) && !IsBlank(form.password)
    modifies form`message, form`isLoading
    ensures session.Some? ==> !form.MessageVisible()
    ensures outcome.Fail? ==> form.MessageVisible()
  {
    var send := form.Submit();
    session := form.CompleteLogin(outcome);
    if outcome.Fail? {
      FailureMessageNonEmpty(outcome.failure);
    }
  }
}
