/**
 * The pregnancy-information form (ChildInfoScreen.kt): week, weight, length and
 * due date typed as text, the week limited to two digits as it is typed,
 * checked on "submit" and sent to the server as typed.
 */
module ChildInfo {
  import opened Wrappers
  import opened Text
  import opened Remote

  const MissingUserMessage := "Không tìm thấy thông tin người dùng"
  const BlankMessage := "Vui lòng điền đầy đủ thông tin"
  const WeekMessage := "Tuần thai phải từ 1 đến 40"
  const ServerErrorPrefix := "Lỗi máy chủ: "
  const ConnectionErrorPrefix := "Lỗi kết nối: "

  /** The screen without a user shows only an error text. */
  datatype Screen = MissingUser(message: string) | Form

  function ScreenFor(userId: Option<string>): (s: Screen)
    ensures s.MissingUser? <==> userId.None?
  {
    if userId.None? then MissingUser(MissingUserMessage) else Form
  }

  /** The fields `addPregnancyInfo` sends, exactly as typed. */
  datatype ChildInfoRequest = ChildInfoRequest(userId: string, week: string, weight: string, length: string, dueDate: string)

  class ChildInfoForm {
    const userId: string
    var week: string
    var weight: string
    var length: string
    var dueDate: string
    var isLoading: bool
    var errorMessage: Option<string>

    /** The week field only ever holds up to two digits. */
    predicate Valid()
      reads this
    {
      |week| <= 2 && AllDigits(week)
    }

    constructor (userId: string)
      ensures Valid()
      ensures this.userId == userId && week == "" && weight == "" && length == "" && dueDate == ""
      ensures !isLoading && errorMessage == None
    {
      this.userId := userId;
      week := "";
      weight := "";
      length := "";
      dueDate := "";
      isLoading := false;
      errorMessage := None;
    }

    /** The week field's `onValueChange`: an edit longer than two characters or with a non-digit is dropped. */
    method EditWeek(input: string)
      requires Valid()
      modifies this`week
      ensures Valid()
      ensures week == (if |input| <= 2 && AllDigits(input) then input else old(week))
    {
      if |input| <= 2 && AllDigits(input) {
        week := input;
      }
    }

    /**
     * The enabled button's `onClick`: a blank field, then a week outside 1..40,
     * stops with a message; otherwise the error clears, loading starts and the
     * request goes out with the fields as typed.
     */
    method Submit() returns (request: Option<ChildInfoRequest>)
      requires !isLoading
      modifies this`errorMessage, this`isLoading
      ensures IsBlank(week) || IsBlank(weight) || IsBlank(length) || IsBlank(dueDate) ==>
        request.None? && errorMessage == Some(BlankMessage) && !isLoading
      ensures !(IsBlank(week) || IsBlank(weight) || IsBlank(length) || IsBlank(dueDate)) ==>
        && (request.None? <==> !(ParseInt(week).Some? && 1 <= ParseInt(week).value <= 40))
        && (request.None? ==> errorMessage == Some(WeekMessage) && !isLoading)
        && (request.Some? ==>
              && request.value == ChildInfoRequest(userId, week, weight, length, dueDate)
              && errorMessage == None && isLoading)
    {
      if IsBlank(week) || IsBlank(weight) || IsBlank(length) || IsBlank(dueDate) {
        errorMessage := Some(BlankMessage);
        request := None;
      } else if !(ParseInt(week).Some? && 1 <= ParseInt(week).value <= 40) {
        errorMessage := Some(WeekMessage);
        request := None;
      } else {
        errorMessage := None;
        isLoading := true;
        request := Some(ChildInfoRequest(userId, week, weight, length, dueDate));
      }
    }

    /**
     * The call's end: loading stops; a 2xx response leaves the screen and clears
     * the fields, anything else shows its error.
     */
    method CompleteSubmit(outcome: Outcome<Response<()>>) returns (navigateBack: bool)
      requires Valid()
      modifies this`isLoading, this`errorMessage, this`week, this`weight, this`length, this`dueDate
      ensures Valid() && !isLoading
      ensures navigateBack <==> outcome.Ok? && outcome.value.IsSuccessful()
      ensures navigateBack ==> week == "" && weight == "" && length == "" && dueDate == "" && errorMessage == old(errorMessage)
      ensures !navigateBack ==> week == old(week) && weight == old(weight) && length == old(length) && dueDate == old(dueDate)
      ensures outcome.Ok? && !navigateBack ==> errorMessage == Some(ServerErrorPrefix + IntToString(outcome.value.code))
      ensures outcome.Fail? ==> errorMessage == Some(ConnectionErrorPrefix + outcome.failure.message)
    {
      isLoading := false;
      match outcome
      case Ok(response) =>
        if response.IsSuccessful() {
          navigateBack := true;
          week := "";
          weight := "";
          length := "";
          dueDate := "";
        } else {
          navigateBack := false;
          errorMessage := Some(ServerErrorPrefix + IntToString(response.code));
        }
      case Fail(e) =>
        navigateBack := false;
        errorMessage := Some(ConnectionErrorPrefix + e.message);
    }
  }

  /**
   * Because the week field holds at most two digits, a filled-in week always
   * parses, and it is rejected exactly when it is 0 (typed as "0" or "00") or
   * above 40.
   */
  lemma WeekRejectedIff(week: string)
    requires |week| <= 2 && AllDigits(week) && !IsBlank(week)
    ensures ParseInt(week).Some? && ParseInt(week).value == DigitsValue(week)
    ensures !(1 <= ParseInt(week).value <= 40) <==> DigitsValue(week) == 0 || DigitsValue(week) > 40
  {
    assert |week| >= 1;
    ParseTwoDigits(week);
  }
}
