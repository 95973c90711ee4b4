/**
 * The sign-up form (RegisterScreen.kt): five text fields, a button that checks
 * them and posts `register.php`, and the message line under the button.
 */
module Register {
  import opened Wrappers
  import opened Text
  import opened Remote

  const BlankMessage := "Vui lòng điền đầy đủ thông tin"
  const MismatchMessage := "Mật khẩu không khớp"
  const EmptyBodyMessage := "Dữ liệu phản hồi rỗng"
  const FailedPrefix := "Đăng ký thất bại: "
  const ConnectionPrefix := "Lỗi kết nối: "

  /** The form fields `register` posts; the confirmation is not sent. */
  datatype RegisterRequest = RegisterRequest(username: string, password: string, name: string, email: string)

  /** The four fields that must not be blank; the e-mail may be. */
  predicate RequiredFilled(username: string, password: string, confirmPassword: string, name: string) {
    !IsBlank(username) && !IsBlank(password) && !IsBlank(confirmPassword) && !IsBlank(name)
  }

  /** The screen's remembered state. */
  class RegisterForm {
    var username: string
    var password: string
    var confirmPassword: string
    var name: string
    var email: string
    var message: string
    var isLoading: bool

    constructor ()
      ensures username == "" && password == "" && confirmPassword == "" && name == "" && email == ""
      ensures message == "" && !isLoading
    {
      username, password, confirmPassword, name, email := "", "", "", "", "";
      message := "";
      isLoading := false;
    }

    /** The button is enabled only while no call is running. */
    predicate ButtonEnabled()
      reads this
    {
      !isLoading
    }

    /** The message line shows whenever the message is not empty. */
    predicate MessageVisible()
      reads this
    {
      message != ""
    }

    /**
     * The button's `onClick`: a blank required field, then a password that
     * differs from its confirmation, stops with a message; otherwise loading
     * starts, the message clears and the request goes out.
     */
    method Submit() returns (request: Option<RegisterRequest>)
      requires ButtonEnabled()
      modifies this`message, this`isLoading
      ensures request.Some? <==> RequiredFilled(username, password, confirmPassword, name) && password == confirmPassword
      ensures !RequiredFilled(username, password, confirmPassword, name) ==> message == BlankMessage && !isLoading
      ensures RequiredFilled(username, password, confirmPassword, name) && password != confirmPassword ==>
        message == MismatchMessage && !isLoading
      ensures request.Some? ==>
        request.value == RegisterRequest(username, password, name, email) && message == "" && isLoading
    {
      if !RequiredFilled(username, password, confirmPassword, name) {
        message := BlankMessage;
        return None;
      }
      if password != confirmPassword {
        message := MismatchMessage;
        return None;
      }
      isLoading := true;
      message := "";
      request := Some(RegisterRequest(username, password, name, email));
    }

    /**
     * The call's end: loading stops; a 2xx response with a body shows the
     * server's message and signs up when the body says so; an empty body, a
     * non-2xx code or a thrown exception each shows its own message.
     */
    method CompleteRegister(outcome: Outcome<Response<ApiResponse>>) returns (registered: bool)
      modifies this`message, this`isLoading
      ensures !isLoading
      ensures registered <==>
        outcome.Ok? && outcome.value.IsSuccessful() && outcome.value.body.Some? && outcome.value.body.value.success
      ensures outcome.Ok? && outcome.value.IsSuccessful() && outcome.value.body.Some? ==>
        message == outcome.value.body.value.message
      ensures outcome.Ok? && outcome.value.IsSuccessful() && outcome.value.body.None? ==> message == EmptyBodyMessage
      ensures outcome.Ok? && !outcome.value.IsSuccessful() ==> message == FailedPrefix + IntToString(outcome.value.code)
      ensures outcome.Fail? ==> message == ConnectionPrefix + outcome.failure.message
    {
      isLoading := false;
      registered := false;
      match outcome {
        case Ok(response) =>
          if response.IsSuccessful() {
            match response.body {
              case Some(body) =>
                message := body.message;
                registered := body.success;
              case None =>
                message := EmptyBodyMessage;
            }
          } else {
            message := FailedPrefix + IntToString(response.code);
          }
        case Fail(e) =>
          message := ConnectionPrefix + e.message;
      }
    }
  }

  /**
   * A refused sign-up always leaves a message on screen; only a body the server
   * itself answered with an empty message can leave the line blank.
   */
  method RegisterThenRefused(form: RegisterForm, outcome: Outcome<Response<ApiResponse>>)
    modifies form`message, form`isLoading
    ensures !(outcome.Ok? && outcome.value.IsSuccessful() && outcome.value.body.Some?) ==> form.MessageVisible()
    ensures form.ButtonEnabled()
  {
    var registered := form.CompleteRegister(outcome);
    if outcome.Ok? && !outcome.value.IsSuccessful() {
      assert form.message[..|FailedPrefix|] == FailedPrefix;
    }
  }
}
