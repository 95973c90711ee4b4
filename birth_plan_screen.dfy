/**
 * The birth-plan screen (LapTrinhSinh.kt): what it shows for each state of the
 * view model, the answered mark on each question, the option dialog and the
 * snackbar that reports a save.
 */
module BirthPlanScreen {
  import opened Wrappers
  import opened BirthPlan

  /** `options.any { it.isSelected }`. */
  function AnySelected(os: seq<PlanOption>): (r: bool)
    ensures r <==> exists k :: 0 <= k < |os| && os[k].isSelected
  {
    if os == [] then false
    else if os[0].isSelected then true
    else
      var r := AnySelected(os[1..]);
      assert r ==> exists k :: 0 <= k < |os[1..]| && os[1..][k].isSelected;
      assert r ==> exists k :: 0 <= k < |os| && os[k].isSelected by {
        if r {
          var k :| 0 <= k < |os[1..]| && os[1..][k].isSelected;
          assert os[k + 1].isSelected;
        }
      }
      assert (exists k :: 0 <= k < |os| && os[k].isSelected) ==> r by {
        if exists k :: 0 <= k < |os| && os[k].isSelected {
          var k :| 0 <= k < |os| && os[k].isSelected;
          assert k > 0 && os[1..][k - 1].isSelected;
        }
      }
      r
  }

  /** The question card shows the green check ("Đã chọn") rather than the red circle. */
  function HasSelections(q: Question): bool {
    AnySelected(q.options)
  }

  /** Ticking an option marks every question holding it as answered. */
  lemma TickMarksAnswered(qs: seq<Question>, userId: string, questionId: string, optionId: string, i: int, k: int)
    requires 0 <= i < |qs| && 0 <= k < |qs[i].options|
    requires qs[i].id == questionId && qs[i].options[k].id == optionId
    ensures HasSelections(ApplySelection(qs, userId, questionId, optionId, true).0[i])
  {
    assert ApplySelection(qs, userId, questionId, optionId, true).0[i].options[k].isSelected;
  }

  /** Unticking the only ticked option of a question leaves it unanswered. */
  lemma UntickLastClearsAnswered(qs: seq<Question>, userId: string, questionId: string, optionId: string, i: int)
    requires 0 <= i < |qs| && qs[i].id == questionId
    requires forall k :: 0 <= k < |qs[i].options| && qs[i].options[k].isSelected ==> qs[i].options[k].id == optionId
    ensures !HasSelections(ApplySelection(qs, userId, questionId, optionId, false).0[i])
  {
  }

  /** After the first fetch no question is marked answered. */
  lemma FirstFetchUnanswered(fetched: seq<Question>)
    ensures forall i :: 0 <= i < |fetched| ==> !HasSelections(MergeSelections([], fetched)[i])
  {
    FirstFetchSelectsNothing(fetched);
  }

  datatype QuestionItem = QuestionItem(question: Question, answered: bool)

  /** The body of the screen below the header. */
  datatype View =
    | Spinner(caption: string)
    | QuestionList(items: seq<QuestionItem>)
    | Prompt(message: string, buttonLabel: string)

  /**
   * The `when (uiState)` of the screen. The list always shows the view model's
   * merged list, never the list the Success state carries; Error and Idle offer a
   * button that fetches again.
   */
  function Render(state: UiState, questions: seq<Question>): (v: View)
    ensures v.Spinner? <==> state.Loading? || state.Saving?
    ensures v.QuestionList? <==> state.Success? || state.SaveSuccess? || state.SaveError?
    ensures v.Prompt? <==> state.Error? || state.Idle?
    ensures v.QuestionList? ==>
      |v.items| == |questions| &&
      forall i :: 0 <= i < |questions| ==>
        && v.items[i].question == questions[i]
        && (v.items[i].answered <==> exists k :: 0 <= k < |questions[i].options| && questions[i].options[k].isSelected)
    ensures state.Error? ==> v == Prompt("Đã xảy ra lỗi: " + state.message, "Thử lại")
  {
    match state
    case Loading => Spinner("Đang tải kế hoạch sinh...")
    case Saving => Spinner("Đang lưu lựa chọn...")
    case Success(_) => QuestionList(Items(questions))
    case SaveSuccess(_) => QuestionList(Items(questions))
    case SaveError(_) => QuestionList(Items(questions))
    case Error(message) => Prompt("Đã xảy ra lỗi: " + message, "Thử lại")
    case Idle => Prompt("Chờ tải kế hoạch sinh...", "Tải dữ liệu")
  }

  function Items(questions: seq<Question>): seq<QuestionItem> {
    seq(|questions|, i requires 0 <= i < |questions| => QuestionItem(questions[i], HasSelections(questions[i])))
  }

  /** The snackbar raised by `LaunchedEffect(uiState)`: only after a save. */
  function SnackbarText(state: UiState): (r: Option<string>)
    ensures r.Some? <==> state.SaveSuccess? || state.SaveError?
  {
    match state
    case SaveSuccess(message) => Some(message)
    case SaveError(message) => Some("Lỗi: " + message)
    case _ => None
  }

  /**
   * Every finished save shows a snackbar: the server's message (or the default)
   * after a successful save, and an error prefixed "Lỗi: " otherwise.
   */
  lemma SaveFeedback(outcome: Remote.Outcome<Remote.Response<SaveBody>>)
    ensures var s := SaveOutcomeState(outcome);
      var text := SnackbarText(s);
      && text.Some?
      && (s.SaveSuccess? ==> text.value == outcome.value.body.value.message.GetOr(SaveDefaultMessage))
      && (s.SaveError? ==> text.value == "Lỗi: " + s.message)
      && (outcome.Fail? ==> text.value == "Lỗi: " + SaveConnectionPrefix + outcome.failure.message)
  {
  }

  /** Tapping an option's row asks to flip the flag the dialog shows. */
  function RowClick(o: PlanOption): (r: (string, bool))
    ensures r.0 == o.id && r.1 != o.isSelected
  {
    (o.id, !o.isSelected)
  }

  /** Toggling the checkbox asks for the box's new state. */
  function CheckboxChange(o: PlanOption, isChecked: bool): (r: (string, bool))
    ensures r.0 == o.id && r.1 == isChecked
  {
    (o.id, isChecked)
  }

  /** The screen's own state: `showDialog` and the `selectedQuestion` snapshot. */
  class BirthPlanScreenState {
    var showDialog: bool
    var selectedQuestion: Option<Question>

    constructor ()
      ensures !showDialog && selectedQuestion == None
    {
      showDialog := false;
      selectedQuestion := None;
    }

    /** The question the dialog shows, when it is open. */
    function DialogQuestion(): Option<Question>
      reads this
    {
      if showDialog then selectedQuestion else None
    }

    /** Tapping a question card: the dialog opens on a copy of that question. */
    method OpenDialog(q: Question)
      modifies this
      ensures showDialog && selectedQuestion == Some(q)
      ensures DialogQuestion() == Some(q)
    {
      selectedQuestion := Some(q);
      showDialog := true;
    }

    /** "Đóng", "Lưu" or a tap outside: the dialog closes; nothing is saved by it. */
    method Dismiss()
      modifies this`showDialog
      ensures !showDialog && DialogQuestion() == None
    {
      showDialog := false;
    }

    /**
     * A tap inside the dialog updates the view model under the snapshot's question
     * id; the snapshot itself is not refreshed, so the dialog keeps showing the
     * flags it was opened with.
     */
    method SelectOption(vm: BirthPlanViewModel, optionId: string, isSelected: bool)
      returns (requests: seq<SelectionRequest>)
      requires DialogQuestion().Some?
      modifies vm`questionsWithSelections
      ensures selectedQuestion == old(selectedQuestion) && showDialog
      ensures (vm.questionsWithSelections, requests)
        == ApplySelection(old(vm.questionsWithSelections), vm.currentUserId, selectedQuestion.value.id, optionId, isSelected)
    {
      requests := vm.UpdateOptionSelection(selectedQuestion.value.id, optionId, isSelected);
    }

    /** "Thử lại" or "Tải dữ liệu": fetch again. */
    method PressReload(vm: BirthPlanViewModel)
      requires Render(vm.uiState, vm.questionsWithSelections).Prompt?
      modifies vm`uiState
      ensures vm.uiState == Loading
    {
      vm.FetchBirthPlanQuestions();
    }
  }
}
