/**
 * The chat with the doctor (ChatScreen.kt): `ChatViewModel` loads the thread
 * between the user and doctor 1 and sends the user's messages; the screen
 * draws the user's messages on the right and sends the trimmed input.
 */
module Chat {
  import opened Wrappers
  import opened Text
  import opened Remote

  /** The one doctor every conversation is with. */
  const DoctorId := 1
  /** The sender tag of the user's own messages. */
  const UserSender := "u"
  const LoadFailedMessage := "Không thể tải tin nhắn"
  const ServerErrorPrefix := "Lỗi server: "
  const ConnectionMessage := "Không thể kết nối đến máy chủ."
  const SendFailedToast := "Gửi tin nhắn thất bại!"

  /** `Message`, as the screen keeps it. */
  datatype Message = Message(content: string, sender: string, time: string)
  /** `MessageData`, as the server sends it. */
  datatype MessageData = MessageData(message: string, sender: string, time: string)
  /** `MessageResponse`. */
  datatype MessageResponse = MessageResponse(success: bool, message: string, messages: Option<seq<MessageData>>)
  /** The fields `sendMessage` posts. */
  datatype SendRequest = SendRequest(userId: string, doctorId: int, sender: string, message: string)

  /** `messages.map { Message(it.message, it.sender, it.time) }`. */
  function ToMessages(data: seq<MessageData>): (r: seq<Message>)
    ensures |r| == |data|
    ensures forall i :: 0 <= i < |data| ==>
      r[i].content == data[i].message && r[i].sender == data[i].sender && r[i].time == data[i].time
  {
    seq(|data|, i requires 0 <= i < |data| => Message(data[i].message, data[i].sender, data[i].time))
  }

  /** `ChatViewModel`: the thread and the error line. */
  class ChatViewModel {
    var messages: seq<Message>
    var errorMessage: Option<string>

    constructor ()
      ensures messages == [] && errorMessage == None
    {
      messages := [];
      errorMessage := None;
    }

    /** The start of `loadMessages`: the error line clears before the call. */
    method BeginLoad()
      modifies this`errorMessage
      ensures errorMessage == None
    {
      errorMessage := None;
    }

    /**
     * The end of `loadMessages`: a 2xx answer with `success` and a message list
     * replaces the thread; anything else leaves the thread and sets the error,
     * the server's message first, then the fallback.
     */
    method CompleteLoad(outcome: Outcome<Response<MessageResponse>>)
      modifies this`messages, this`errorMessage
      ensures var loaded := outcome.Ok? && outcome.value.IsSuccessful() && outcome.value.body.Some?
        && outcome.value.body.value.success && outcome.value.body.value.messages.Some?;
        && (loaded ==> messages == ToMessages(outcome.value.body.value.messages.value) && errorMessage == old(errorMessage))
        && (!loaded ==> messages == old(messages) && errorMessage.Some?)
      ensures outcome.Ok? && outcome.value.IsSuccessful() && outcome.value.body.None? ==>
        errorMessage == Some(LoadFailedMessage)
      ensures (outcome.Ok? && outcome.value.IsSuccessful() && outcome.value.body.Some?
               && !(outcome.value.body.value.success && outcome.value.body.value.messages.Some?)) ==>
        errorMessage == Some(outcome.value.body.value.message)
      ensures outcome.Ok? && !outcome.value.IsSuccessful() ==>
        errorMessage == Some(ServerErrorPrefix + IntToString(outcome.value.code))
      ensures outcome.Fail? ==> errorMessage == Some(ConnectionMessage)
    {
      match outcome {
        case Ok(response) =>
          if response.IsSuccessful() {
            match response.body {
              case Some(body) =>
                if body.success && body.messages.Some? {
                  messages := ToMessages(body.messages.value);
                } else {
                  errorMessage := Some(body.message);
                }
              case None =>
                errorMessage := Some(LoadFailedMessage);
            }
          } else {
            errorMessage := Some(ServerErrorPrefix + IntToString(response.code));
          }
        case Fail(_) =>
          errorMessage := Some(ConnectionMessage);
      }
    }
  }

  /** `sendMessage`'s request: from the user to doctor 1, tagged as the user's. */
  function SendRequestFor(userId: string, content: string): SendRequest {
    SendRequest(userId, DoctorId, UserSender, content)
  }

  /** `sendMessage` calls `onSuccess` only for a 2xx answer whose body says `success`. */
  predicate SendSucceeded(outcome: Outcome<Response<ApiResponse>>) {
    outcome.Ok? && outcome.value.IsSuccessful() && outcome.value.body.Some? && outcome.value.body.value.success
  }

  /** `sender.equals("u", ignoreCase = true)`: the message is drawn on the user's side. */
  predicate IsUser(m: Message) {
    EqualsIgnoreCase(m.sender, UserSender)
  }

  /** Exactly the senders "u" and "U" are the user. */
  lemma IsUserIff(m: Message)
    ensures IsUser(m) <==> m.sender == "u" || m.sender == "U"
  {
    if IsUser(m) {
      assert |m.sender| == 1;
      assert LowerAscii(m.sender[0]) == 'u';
      assert m.sender == [m.sender[0]];
    }
  }

  /** Every message the user sends from this screen comes back drawn on the user's side. */
  lemma SentMessagesAreUsers(userId: string, content: string, time: string)
    ensures IsUser(Message(content, SendRequestFor(userId, content).sender, time))
  {
  }

  /** The screen's own state: the input line. */
  class ChatScreenState {
    var input: string

    constructor ()
      ensures input == ""
    {
      input := "";
    }

    /**
     * The send button: a blank input sends nothing; otherwise the trimmed
     * input, never blank and never with whitespace at either end, goes out.
     */
    method PressSend(userId: string) returns (request: Option<SendRequest>)
      ensures request.None? <==> IsBlank(input)
      ensures request.Some? ==>
        && request.value == SendRequestFor(userId, Trim(input))
        && request.value.message != []
        && !IsWhitespace(request.value.message[0])
        && !IsWhitespace(request.value.message[|request.value.message| - 1])
    {
      TrimSpec(input);
      if IsBlank(input) {
        return None;
      }
      request := Some(SendRequestFor(userId, Trim(input)));
    }

    /**
     * The end of a send: on success the input clears and the thread reloads;
     * on failure the input stays and a toast says so.
     */
    method CompleteSend(outcome: Outcome<Response<ApiResponse>>) returns (reload: bool, toast: Option<string>)
      modifies this`input
      ensures reload <==> SendSucceeded(outcome)
      ensures reload ==> input == "" && toast.None?
      ensures !reload ==> input == old(input) && toast == Some(SendFailedToast)
    {
      if SendSucceeded(outcome) {
        input := "";
        reload, toast := true, None;
      } else {
        reload, toast := false, Some(SendFailedToast);
      }
    }
  }
}
