/**
 * The pregnancy summary on the home screen (HomeScreen.kt): week, length,
 * weight and due date, loaded once from the server with fixed defaults, and the
 * update form that checks its four inputs, sends them and, on success, copies
 * them into the summary.
 */
module Pregnancy {
  import opened Wrappers
  import opened Text
  import opened Remote

  const DefaultWeek := 20
  const DefaultLength: real := 25.0
  const DefaultWeight: real := 300.0
  const DefaultDueDate := "2025-08-01"

  const WeekMessage := "Tuần thai phải từ 1 đến 42"
  const LengthMessage := "Chiều dài phải là số dương"
  const WeightMessage := "Cân nặng phải là số dương"
  const DueDateMessage := "Dự sinh phải có định dạng YYYY-MM-DD"
  const UpdateFailedMessage := "Cập nhật thất bại, vui lòng thử lại"

  /** The week is an integer in 1..42. */
  predicate WeekOk(week: Option<int>) {
    week.Some? && 1 <= week.value <= 42
  }

  /** `x != null && x > 0` for a parsed decimal. */
  predicate PositiveOk(x: Option<real>) {
    x.Some? && x.value > 0.0
  }

  /** The whole text matches `\d{4}-\d{2}-\d{2}`. */
  predicate IsDueDateShape(s: string) {
    && |s| == 10
    && (forall i :: 0 <= i < 10 && i != 4 && i != 7 ==> IsDigit(s[i]))
    && s[4] == '-' && s[7] == '-'
  }

  /** The pattern checks the shape only: a month 13 and a day 45 pass. */
  lemma ShapeOnly()
    ensures IsDueDateShape("2025-13-45")
    ensures !IsDueDateShape("2025-8-1")
  {
  }

  /**
   * The `when` that sets `errorMessage` on "Cập nhật": the first failing check
   * names its field, and the empty message means every input is acceptable.
   * `parseDouble` is `String.toDoubleOrNull`.
   */
  function Validate(weekInput: string, lengthInput: string, weightInput: string, dueDateInput: string,
                    parseDouble: string -> Option<real>): (msg: string)
    ensures msg == "" <==>
      WeekOk(ParseInt(weekInput)) && PositiveOk(parseDouble(lengthInput)) && PositiveOk(parseDouble(weightInput))
      && IsDueDateShape(Trim(dueDateInput))
    ensures !WeekOk(ParseInt(weekInput)) ==> msg == WeekMessage
    ensures WeekOk(ParseInt(weekInput)) && !PositiveOk(parseDouble(lengthInput)) ==> msg == LengthMessage
    ensures WeekOk(ParseInt(weekInput)) && PositiveOk(parseDouble(lengthInput)) && !PositiveOk(parseDouble(weightInput))
      ==> msg == WeightMessage
    ensures (WeekOk(ParseInt(weekInput)) && PositiveOk(parseDouble(lengthInput)) && PositiveOk(parseDouble(weightInput))
             && !IsDueDateShape(Trim(dueDateInput))) ==> msg == DueDateMessage
    ensures msg in {"", WeekMessage, LengthMessage, WeightMessage, DueDateMessage}
  {
    if !WeekOk(ParseInt(weekInput)) then WeekMessage
    else if !PositiveOk(parseDouble(lengthInput)) then LengthMessage
    else if !PositiveOk(parseDouble(weightInput)) then WeightMessage
    else if !IsDueDateShape(Trim(dueDateInput)) then DueDateMessage
    else ""
  }

  /** The fields drawn in red: the error text mentions their label, ignoring case. */
  datatype Highlights = Highlights(week: bool, length: bool, weight: bool, dueDate: bool)

  function HighlightsFor(errorMessage: string): Highlights {
    Highlights(ContainsIgnoreCase(errorMessage, "tuần"), ContainsIgnoreCase(errorMessage, "chiều dài"),
               ContainsIgnoreCase(errorMessage, "cân nặng"), ContainsIgnoreCase(errorMessage, "dự sinh"))
  }

  /** A label with a character outside A-Z/a-z that the text lacks cannot occur in it. */
  lemma MissingCharNoMatch(s: string, part: string, k: int)
    requires 0 <= k < |part| && !('A' <= part[k] <= 'Z') && !('a' <= part[k] <= 'z')
    requires part[k] !in s
    ensures !ContainsIgnoreCase(s, part)
  {
  }

  lemma StartsWithNoCase(s: string, part: string)
    requires |part| <= |s| && EqualsIgnoreCase(s[..|part|], part)
    ensures ContainsIgnoreCase(s, part)
  {
    assert MatchesAt(s, part, 0);
  }

  /** The week check's message lights up the week field only. */
  lemma HighlightsWeekMessage()
    ensures HighlightsFor(WeekMessage) == Highlights(true, false, false, false)
  {
    StartsWithNoCase(WeekMessage, "tuần");
    MissingCharNoMatch(WeekMessage, "chiều dài", 3);  // ề
    MissingCharNoMatch(WeekMessage, "cân nặng", 1);   // â
    MissingCharNoMatch(WeekMessage, "dự sinh", 1);    // ự
  }

  /** The length check's message lights up the length field only. */
  lemma HighlightsLengthMessage()
    ensures HighlightsFor(LengthMessage) == Highlights(false, true, false, false)
  {
    StartsWithNoCase(LengthMessage, "chiều dài");
    MissingCharNoMatch(LengthMessage, "tuần", 2);     // ầ
    MissingCharNoMatch(LengthMessage, "cân nặng", 1);
    MissingCharNoMatch(LengthMessage, "dự sinh", 1);
  }

  /** The weight check's message lights up the weight field only. */
  lemma HighlightsWeightMessage()
    ensures HighlightsFor(WeightMessage) == Highlights(false, false, true, false)
  {
    StartsWithNoCase(WeightMessage, "cân nặng");
    MissingCharNoMatch(WeightMessage, "tuần", 2);
    MissingCharNoMatch(WeightMessage, "chiều dài", 3);
    MissingCharNoMatch(WeightMessage, "dự sinh", 1);
  }

  /** The due-date check's message lights up the due-date field only. */
  lemma HighlightsDueDateMessage()
    ensures HighlightsFor(DueDateMessage) == Highlights(false, false, false, true)
  {
    DueDateLabel();
    MissingCharNoMatch(DueDateMessage, "tuần", 2);
    MissingCharNoMatch(DueDateMessage, "chiều dài", 3);
    MissingCharNoMatch(DueDateMessage, "cân nặng", 1);
  }

  lemma DueDateLabel()
    ensures ContainsIgnoreCase(DueDateMessage, "dự sinh")
  {
    assert EqualsIgnoreCase("Dự sinh", "dự sinh");
    assert DueDateMessage[..|"dự sinh"|] == "Dự sinh";
    StartsWithNoCase(DueDateMessage, "dự sinh");
  }

  /** A failed update lights up no field. */
  lemma HighlightsUpdateFailed()
    ensures HighlightsFor(UpdateFailedMessage) == Highlights(false, false, false, false)
  {
    MissingCharNoMatch(UpdateFailedMessage, "tuần", 2);
    MissingCharNoMatch(UpdateFailedMessage, "chiều dài", 3);
    MissingCharNoMatch(UpdateFailedMessage, "cân nặng", 1);
    MissingCharNoMatch(UpdateFailedMessage, "dự sinh", 1);
  }

  /**
   * `updatePregnancyInfo`: a 2xx response whose body mentions "success" in any
   * case; any failure, including a thrown exception, is false.
   */
  function UpdateSucceeded(outcome: Outcome<Response<string>>): bool {
    outcome.Ok? && outcome.value.IsSuccessful() && outcome.value.body.Some?
    && ContainsIgnoreCase(outcome.value.body.value, "success")
  }

  /**
   * Only a 2xx response with a body can succeed, and one whose body starts with
   * "success" in any case does; a body reporting "unsuccessful" counts as well,
   * because the check is a substring search.
   */
  lemma UpdateSucceededSpec(outcome: Outcome<Response<string>>)
    ensures UpdateSucceeded(outcome) ==> outcome.Ok? && outcome.value.IsSuccessful() && outcome.value.body.Some?
    ensures
      && outcome.Ok? && outcome.value.IsSuccessful() && outcome.value.body.Some?
      && |"success"| <= |outcome.value.body.value|
      && EqualsIgnoreCase(outcome.value.body.value[..|"success"|], "success")
      ==> UpdateSucceeded(outcome)
    ensures UpdateSucceeded(Ok(Response(200, "OK", Some("unsuccessful"), None)))
  {
    if && outcome.Ok? && outcome.value.body.Some? && |"success"| <= |outcome.value.body.value|
       && EqualsIgnoreCase(outcome.value.body.value[..|"success"|], "success")
    {
      var body := outcome.value.body.value;
      assert body[0..|"success"|] == body[..|"success"|];
      assert MatchesAt(body, "success", 0);
    }
    assert MatchesAt("unsuccessful", "success", 2);
  }

  /** The fields `get_pregnancy.php` may carry, each already read as the right type. */
  datatype PregnancyJson = PregnancyJson(week: Option<int>, length: Option<real>, weight: Option<real>, dueDate: Option<string>)

  /** The values sent to `save_pregnancy.php`. */
  datatype PregnancyUpdate = PregnancyUpdate(week: int, length: real, weight: real, dueDate: string)

  /** The summary card's state in `HomeScreen`. */
  class PregnancyHome {
    var week: int
    var length: real
    var weight: real
    var dueDate: string
    var showForm: bool

    constructor ()
      ensures week == DefaultWeek && length == DefaultLength && weight == DefaultWeight && dueDate == DefaultDueDate
      ensures !showForm
    {
      week := DefaultWeek;
      length := DefaultLength;
      weight := DefaultWeight;
      dueDate := DefaultDueDate;
      showForm := false;
    }

    /**
     * `loadPregnancyInfo`'s callback: each missing field takes its default. A
     * failed call, an empty body or a parse error (`None`) changes nothing.
     */
    method ApplyLoaded(info: Option<PregnancyJson>)
      modifies this`week, this`length, this`weight, this`dueDate
      ensures info.None? ==> week == old(week) && length == old(length) && weight == old(weight) && dueDate == old(dueDate)
      ensures info.Some? ==>
        && week == info.value.week.GetOr(DefaultWeek)
        && length == info.value.length.GetOr(DefaultLength)
        && weight == info.value.weight.GetOr(DefaultWeight)
        && dueDate == info.value.dueDate.GetOr(DefaultDueDate)
    {
      if info.Some? {
        week := info.value.week.GetOr(DefaultWeek);
        length := info.value.length.GetOr(DefaultLength);
        weight := info.value.weight.GetOr(DefaultWeight);
        dueDate := info.value.dueDate.GetOr(DefaultDueDate);
      }
    }

    /** Tapping the card opens a form with empty inputs. */
    method OpenForm() returns (form: PregnancyForm)
      modifies this`showForm
      ensures showForm && fresh(form)
      ensures form.weekInput == "" && form.lengthInput == "" && form.weightInput == "" && form.dueDateInput == ""
      ensures form.errorMessage == ""
    {
      showForm := true;
      form := new PregnancyForm();
    }

    /** "Huỷ". */
    method Dismiss()
      modifies this`showForm
      ensures !showForm
    {
      showForm := false;
    }
  }

  /** `PregnancyUpdateForm`'s inputs and error text. */
  class PregnancyForm {
    var weekInput: string
    var lengthInput: string
    var weightInput: string
    var dueDateInput: string
    var errorMessage: string

    constructor ()
      ensures weekInput == "" && lengthInput == "" && weightInput == "" && dueDateInput == "" && errorMessage == ""
    {
      weekInput := "";
      lengthInput := "";
      weightInput := "";
      dueDateInput := "";
      errorMessage := "";
    }

    /**
     * "Cập nhật": validates, and when every input is acceptable returns the parsed
     * values to send, with the due date trimmed.
     */
    method Submit(parseDouble: string -> Option<real>) returns (request: Option<PregnancyUpdate>)
      modifies this`errorMessage
      ensures errorMessage == Validate(weekInput, lengthInput, weightInput, dueDateInput, parseDouble)
      ensures request.Some? <==> errorMessage == ""
      ensures request.Some? ==>
        && 1 <= request.value.week <= 42 && request.value.length > 0.0 && request.value.weight > 0.0
        && IsDueDateShape(request.value.dueDate)
        && request.value == PregnancyUpdate(ParseInt(weekInput).value, parseDouble(lengthInput).value,
                                            parseDouble(weightInput).value, Trim(dueDateInput))
    {
      errorMessage := Validate(weekInput, lengthInput, weightInput, dueDateInput, parseDouble);
      if errorMessage == "" {
        request := Some(PregnancyUpdate(ParseInt(weekInput).value, parseDouble(lengthInput).value,
                                        parseDouble(weightInput).value, Trim(dueDateInput)));
      } else {
        request := None;
      }
    }

    /** The save's result: on success the summary takes the sent values and the form closes. */
    method CompleteUpdate(home: PregnancyHome, sent: PregnancyUpdate, outcome: Outcome<Response<string>>)
      modifies this`errorMessage, home
      ensures UpdateSucceeded(outcome) ==>
        && home.week == sent.week && home.length == sent.length && home.weight == sent.weight
        && home.dueDate == sent.dueDate && !home.showForm && errorMessage == old(errorMessage)
      ensures !UpdateSucceeded(outcome) ==>
        && errorMessage == UpdateFailedMessage
        && home.week == old(home.week) && home.length == old(home.length) && home.weight == old(home.weight)
        && home.dueDate == old(home.dueDate) && home.showForm == old(home.showForm)
    {
      if UpdateSucceeded(outcome) {
        home.week := sent.week;
        home.length := sent.length;
        home.weight := sent.weight;
        home.dueDate := sent.dueDate;
        home.showForm := false;
      } else {
        errorMessage := UpdateFailedMessage;
      }
    }
  }
}
