/**
 * The birth-plan view model (BirthPlanViewModel.kt): a list of questions whose
 * options the mother ticks, kept across re-fetches, with every tick saved to the
 * server and a UI state that follows loading and saving.
 */
module BirthPlan {
  import opened Wrappers
  import opened Text
  import opened Remote

  datatype PlanOption = PlanOption(id: string, text: string, isSelected: bool)

  datatype Question = Question(id: string, title: string, options: seq<PlanOption>)

  /** The body of one save call: `BirthPlanSelectionRequest`. */
  datatype SelectionRequest = SelectionRequest(userId: string, questionId: string, optionId: string, isSelected: bool)

  /** The answer to a save call; the message may be missing from the JSON. */
  datatype SaveBody = SaveBody(success: bool, message: Option<string>)

  datatype UiState =
    | Loading
    | Success(questions: seq<Question>)
    | Error(message: string)
    | Idle
    | Saving
    | SaveSuccess(message: string)
    | SaveError(message: string)

  const FetchErrorPrefix := "Lỗi tải kế hoạch sinh: "
  const SaveDefaultMessage := "Lưu thành công!"
  const SaveFailedPrefix := "Lỗi khi lưu: "
  const SaveConnectionPrefix := "Lỗi kết nối khi lưu: "

  // ----- Lookup by id (Kotlin's `find`) -----

  /** `i` is the first position of a question with this id. */
  ghost predicate FirstQuestionAt(qs: seq<Question>, i: int, id: string) {
    0 <= i < |qs| && qs[i].id == id && forall j :: 0 <= j < i ==> qs[j].id != id
  }

  /** `k` is the first position of an option with this id. */
  ghost predicate FirstOptionAt(os: seq<PlanOption>, k: int, id: string) {
    0 <= k < |os| && os[k].id == id && forall j :: 0 <= j < k ==> os[j].id != id
  }

  function FindQuestion(qs: seq<Question>, id: string): Option<Question> {
    if qs == [] then None
    else if qs[0].id == id then Some(qs[0])
    else FindQuestion(qs[1..], id)
  }

  function FindOption(os: seq<PlanOption>, id: string): Option<PlanOption> {
    if os == [] then None
    else if os[0].id == id then Some(os[0])
    else FindOption(os[1..], id)
  }

  /** `find` gives the first question with the id, and null only when there is none. */
  lemma {:induction false} FindQuestionSpec(qs: seq<Question>, id: string)
    ensures FindQuestion(qs, id).None? <==> forall i :: 0 <= i < |qs| ==> qs[i].id != id
    ensures FindQuestion(qs, id).Some? ==>
      exists i :: FirstQuestionAt(qs, i, id) && qs[i] == FindQuestion(qs, id).value
  {
    if qs == [] {
    } else if qs[0].id == id {
      assert FirstQuestionAt(qs, 0, id);
    } else {
      FindQuestionSpec(qs[1..], id);
      if FindQuestion(qs[1..], id).Some? {
        var i :| FirstQuestionAt(qs[1..], i, id) && qs[1..][i] == FindQuestion(qs[1..], id).value;
        assert FirstQuestionAt(qs, i + 1, id);
      } else {
        forall i | 0 <= i < |qs| ensures qs[i].id != id {
          if i > 0 { assert qs[i] == qs[1..][i - 1]; }
        }
      }
    }
  }

  /** `find` gives the first option with the id, and null only when there is none. */
  lemma {:induction false} FindOptionSpec(os: seq<PlanOption>, id: string)
    ensures FindOption(os, id).None? <==> forall k :: 0 <= k < |os| ==> os[k].id != id
    ensures FindOption(os, id).Some? ==>
      exists k :: FirstOptionAt(os, k, id) && os[k] == FindOption(os, id).value
  {
    if os == [] {
    } else if os[0].id == id {
      assert FirstOptionAt(os, 0, id);
    } else {
      FindOptionSpec(os[1..], id);
      if FindOption(os[1..], id).Some? {
        var k :| FirstOptionAt(os[1..], k, id) && os[1..][k] == FindOption(os[1..], id).value;
        assert FirstOptionAt(os, k + 1, id);
      } else {
        forall k | 0 <= k < |os| ensures os[k].id != id {
          if k > 0 { assert os[k] == os[1..][k - 1]; }
        }
      }
    }
  }

  // ----- Carrying selections over a re-fetch -----

  /**
   * The option was ticked in `qs`: in the first question with `questionId`, the
   * first option with `optionId` is selected.
   */
  ghost predicate SelectedIn(qs: seq<Question>, questionId: string, optionId: string) {
    exists i, k :: FirstQuestionAt(qs, i, questionId) && FirstOptionAt(qs[i].options, k, optionId)
                   && qs[i].options[k].isSelected
  }

  /** `existingOption?.isSelected ?: false` for the question found by id. */
  function PreviousSelection(existing: Option<Question>, optionId: string): bool {
    match existing
    case None => false
    case Some(q) =>
      match FindOption(q.options, optionId)
      case None => false
      case Some(o) => o.isSelected
  }

  /**
   * The merge in `fetchBirthPlanQuestions`: the fetched questions and options in
   * fetched order, each option's flag taken from the previous list.
   */
  function MergeSelections(previous: seq<Question>, fetched: seq<Question>): seq<Question> {
    seq(|fetched|, i requires 0 <= i < |fetched| =>
      var existing := FindQuestion(previous, fetched[i].id);
      fetched[i].(options := seq(|fetched[i].options|, k requires 0 <= k < |fetched[i].options| =>
        fetched[i].options[k].(isSelected := PreviousSelection(existing, fetched[i].options[k].id))))
    )
  }

  /** The flag the merge computes is exactly "was selected before". */
  lemma PreviousSelectionSpec(previous: seq<Question>, questionId: string, optionId: string)
    ensures PreviousSelection(FindQuestion(previous, questionId), optionId) <==> SelectedIn(previous, questionId, optionId)
  {
    FindQuestionSpec(previous, questionId);
    match FindQuestion(previous, questionId)
    case None =>
    case Some(q) =>
      var i :| FirstQuestionAt(previous, i, questionId) && previous[i] == q;
      FindOptionSpec(q.options, optionId);
      match FindOption(q.options, optionId)
      case None =>
        assert forall i' :: FirstQuestionAt(previous, i', questionId) ==> i' == i;
      case Some(o) =>
        var k :| FirstOptionAt(q.options, k, optionId) && q.options[k] == o;
        if o.isSelected {
          assert FirstQuestionAt(previous, i, questionId) && FirstOptionAt(previous[i].options, k, optionId);
        }
        if SelectedIn(previous, questionId, optionId) {
          var i', k' :| FirstQuestionAt(previous, i', questionId) && FirstOptionAt(previous[i'].options, k', optionId)
                        && previous[i'].options[k'].isSelected;
          assert i' == i;
          assert k' == k;
        }
  }

  /**
   * After a re-fetch, the list has the fetched questions and options in fetched
   * order, and an option is selected exactly when it was selected before under
   * the same question id and option id; the server's own flag is discarded.
   */
  lemma MergeSelectionsSpec(previous: seq<Question>, fetched: seq<Question>)
    ensures var m := MergeSelections(previous, fetched);
      && |m| == |fetched|
      && (forall i :: 0 <= i < |fetched| ==>
            m[i].id == fetched[i].id && m[i].title == fetched[i].title
            && |m[i].options| == |fetched[i].options|)
      && (forall i, k :: 0 <= i < |fetched| && 0 <= k < |fetched[i].options| ==>
            m[i].options[k] == fetched[i].options[k].(isSelected :=
              SelectedIn(previous, fetched[i].id, fetched[i].options[k].id)))
  {
    forall i, k | 0 <= i < |fetched| && 0 <= k < |fetched[i].options|
      ensures PreviousSelection(FindQuestion(previous, fetched[i].id), fetched[i].options[k].id)
              == SelectedIn(previous, fetched[i].id, fetched[i].options[k].id)
    {
      PreviousSelectionSpec(previous, fetched[i].id, fetched[i].options[k].id);
    }
  }

  /** A first fetch (nothing selected before) shows every option unselected. */
  lemma FirstFetchSelectsNothing(fetched: seq<Question>)
    ensures var m := MergeSelections([], fetched);
      forall i, k :: 0 <= i < |m| && 0 <= k < |m[i].options| ==> !m[i].options[k].isSelected
  {
    MergeSelectionsSpec([], fetched);
  }

  // ----- Ticking an option -----

  /** Same ids, titles, texts and lengths: only selection flags may differ. */
  ghost predicate SameShape(a: Question, b: Question) {
    && a.id == b.id && a.title == b.title && |a.options| == |b.options|
    && forall k :: 0 <= k < |a.options| ==> a.options[k].id == b.options[k].id && a.options[k].text == b.options[k].text
  }

  /** How many (question, option) pairs carry these two ids. */
  function MatchCount(qs: seq<Question>, questionId: string, optionId: string): nat {
    if qs == [] then 0
    else (if qs[0].id == questionId then OptionCount(qs[0].options, optionId) else 0)
         + MatchCount(qs[1..], questionId, optionId)
  }

  function OptionCount(os: seq<PlanOption>, optionId: string): nat {
    if os == [] then 0 else (if os[0].id == optionId then 1 else 0) + OptionCount(os[1..], optionId)
  }

  /** The inner `options.map` of `updateOptionSelection` on one matching question. */
  function SelectInOptions(os: seq<PlanOption>, request: SelectionRequest): (r: (seq<PlanOption>, seq<SelectionRequest>))
    ensures |r.0| == |os|
    ensures forall k :: 0 <= k < |os| ==>
      r.0[k].id == os[k].id && r.0[k].text == os[k].text
      && r.0[k].isSelected == (if os[k].id == request.optionId then request.isSelected else os[k].isSelected)
    ensures |r.1| == OptionCount(os, request.optionId)
    ensures forall j :: 0 <= j < |r.1| ==> r.1[j] == request
  {
    if os == [] then ([], [])
    else
      var tail := SelectInOptions(os[1..], request);
      if os[0].id == request.optionId
      then ([os[0].(isSelected := request.isSelected)] + tail.0, [request] + tail.1)
      else ([os[0]] + tail.0, tail.1)
  }

  /**
   * `updateOptionSelection` on a list: the new list, and the save requests issued,
   * one per matching option, in list order.
   */
  function ApplySelection(qs: seq<Question>, userId: string, questionId: string, optionId: string, isSelected: bool)
    : (r: (seq<Question>, seq<SelectionRequest>))
    ensures |r.0| == |qs|
    ensures forall i :: 0 <= i < |qs| ==> SameShape(r.0[i], qs[i]) && |r.0[i].options| == |qs[i].options|
    ensures forall i, k :: 0 <= i < |qs| && 0 <= k < |qs[i].options| ==>
      r.0[i].options[k].isSelected ==
        (if qs[i].id == questionId && qs[i].options[k].id == optionId then isSelected else qs[i].options[k].isSelected)
    ensures |r.1| == MatchCount(qs, questionId, optionId)
    ensures forall j :: 0 <= j < |r.1| ==> r.1[j] == SelectionRequest(userId, questionId, optionId, isSelected)
  {
    if qs == [] then ([], [])
    else
      var tail := ApplySelection(qs[1..], userId, questionId, optionId, isSelected);
      if qs[0].id == questionId then
        var opts := SelectInOptions(qs[0].options, SelectionRequest(userId, questionId, optionId, isSelected));
        ([qs[0].(options := opts.0)] + tail.0, opts.1 + tail.1)
      else
        ([qs[0]] + tail.0, tail.1)
  }

  /** Two questions of the same shape and the same flags are equal. */
  lemma SameQuestion(a: Question, b: Question)
    requires SameShape(a, b)
    requires forall k :: 0 <= k < |a.options| ==> a.options[k].isSelected == b.options[k].isSelected
    ensures a == b
  {
    assert a.options == b.options;
  }

  /** When no option carries both ids, the list is unchanged and nothing is sent. */
  lemma NoMatchNoChange(qs: seq<Question>, userId: string, questionId: string, optionId: string, isSelected: bool)
    requires forall i, k :: 0 <= i < |qs| && 0 <= k < |qs[i].options| ==>
      !(qs[i].id == questionId && qs[i].options[k].id == optionId)
    ensures ApplySelection(qs, userId, questionId, optionId, isSelected) == (qs, [])
  {
    var r := ApplySelection(qs, userId, questionId, optionId, isSelected);
    forall i | 0 <= i < |qs| ensures r.0[i] == qs[i] {
      SameQuestion(r.0[i], qs[i]);
    }
    assert r.0 == qs;
    NoMatchCountZero(qs, questionId, optionId);
  }

  lemma {:induction false} NoMatchCountZero(qs: seq<Question>, questionId: string, optionId: string)
    requires forall i, k :: 0 <= i < |qs| && 0 <= k < |qs[i].options| ==>
      !(qs[i].id == questionId && qs[i].options[k].id == optionId)
    ensures MatchCount(qs, questionId, optionId) == 0
  {
    if qs != [] {
      if qs[0].id == questionId {
        NoOptionCountZero(qs[0].options, optionId);
      }
      NoMatchCountZero(qs[1..], questionId, optionId);
    }
  }

  lemma {:induction false} NoOptionCountZero(os: seq<PlanOption>, optionId: string)
    requires forall k :: 0 <= k < |os| ==> os[k].id != optionId
    ensures OptionCount(os, optionId) == 0
  {
    if os != [] {
      NoOptionCountZero(os[1..], optionId);
    }
  }

  /**
   * Applying the same tick twice leaves the list as one tick does: the dialog keeps
   * sending the flag it computed from its snapshot, so a second click on the same
   * row does not undo the first.
   */
  lemma RepeatedSelectionIdempotent(qs: seq<Question>, userId: string, questionId: string, optionId: string, isSelected: bool)
    ensures var once := ApplySelection(qs, userId, questionId, optionId, isSelected).0;
      ApplySelection(once, userId, questionId, optionId, isSelected).0 == once
  {
    var once := ApplySelection(qs, userId, questionId, optionId, isSelected).0;
    var twice := ApplySelection(once, userId, questionId, optionId, isSelected).0;
    forall i | 0 <= i < |once| ensures twice[i] == once[i] {
      SameQuestion(twice[i], once[i]);
    }
  }

  // ----- Saving a tick -----

  /**
   * The state a finished save call leaves: SaveSuccess only when the call returned
   * a 2xx response whose body says success, with the body's message or the default;
   * SaveError otherwise.
   */
  function SaveOutcomeState(outcome: Outcome<Response<SaveBody>>): (s: UiState)
    ensures s.SaveSuccess? || s.SaveError?
    ensures s.SaveSuccess? <==>
      outcome.Ok? && outcome.value.IsSuccessful() && outcome.value.body.Some? && outcome.value.body.value.success
    ensures s.SaveSuccess? ==> s.message == outcome.value.body.value.message.GetOr(SaveDefaultMessage)
    ensures s.SaveError? && outcome.Ok? ==> StartsWith(s.message, SaveFailedPrefix)
    ensures outcome.Fail? ==> s == SaveError(SaveConnectionPrefix + outcome.failure.message)
  {
    match outcome
    case Fail(e) => SaveError(SaveConnectionPrefix + e.message)
    case Ok(response) =>
      if response.IsSuccessful() && response.body.Some? && response.body.value.success
      then SaveSuccess(response.body.value.message.GetOr(SaveDefaultMessage))
      else
        var m := SaveFailedPrefix + response.statusMessage + " - " + Template(response.errorBody);
        assert m[..|SaveFailedPrefix|] == SaveFailedPrefix;
        SaveError(m)
  }

  /**
   * The view model: `_uiState`, `_questionsWithSelections` and `currentUserId`.
   * Each coroutine it launches is split into the part that runs at once and a
   * Complete* method given the network call's outcome.
   */
  class BirthPlanViewModel {
    var uiState: UiState
    var questionsWithSelections: seq<Question>
    var currentUserId: string

    /** Idle, no questions, no user. */
    constructor ()
      ensures uiState == Idle && questionsWithSelections == [] && currentUserId == ""
    {
      uiState := Idle;
      questionsWithSelections := [];
      currentUserId := "";
    }

    /** Starts a fetch only when the id differs from the stored one. */
    method SetUserId(userId: string) returns (fetchStarted: bool)
      modifies this`currentUserId, this`uiState
      ensures fetchStarted <==> old(currentUserId) != userId
      ensures currentUserId == userId
      ensures uiState == if fetchStarted then Loading else old(uiState)
    {
      fetchStarted := currentUserId != userId;
      if fetchStarted {
        currentUserId := userId;
        FetchBirthPlanQuestions();
      }
    }

    /** The synchronous part of a fetch: Loading before the call. */
    method FetchBirthPlanQuestions()
      modifies this`uiState
      ensures uiState == Loading
    {
      uiState := Loading;
    }

    /**
     * The fetch's completion. On success the merged list replaces the old one and
     * the state carries the fetched (unmerged) list; on failure only the state changes.
     */
    method CompleteFetch(outcome: Outcome<seq<Question>>)
      modifies this`uiState, this`questionsWithSelections
      ensures outcome.Ok? ==>
        && questionsWithSelections == MergeSelections(old(questionsWithSelections), outcome.value)
        && uiState == Success(outcome.value)
      ensures outcome.Fail? ==>
        && questionsWithSelections == old(questionsWithSelections)
        && uiState == Error(FetchErrorPrefix + outcome.failure.message)
    {
      match outcome
      case Ok(fetched) =>
        questionsWithSelections := MergeSelections(questionsWithSelections, fetched);
        uiState := Success(fetched);
      case Fail(e) =>
        uiState := Error(FetchErrorPrefix + e.message);
    }

    /** Ticks or unticks an option; returns the save requests launched, one per match. */
    method UpdateOptionSelection(questionId: string, optionId: string, isSelected: bool)
      returns (requests: seq<SelectionRequest>)
      modifies this`questionsWithSelections
      ensures (questionsWithSelections, requests)
        == ApplySelection(old(questionsWithSelections), currentUserId, questionId, optionId, isSelected)
    {
      var r := ApplySelection(questionsWithSelections, currentUserId, questionId, optionId, isSelected);
      questionsWithSelections := r.0;
      requests := r.1;
    }

    /** The first step of each launched save: Saving. */
    method BeginSave()
      modifies this`uiState
      ensures uiState == Saving
    {
      uiState := Saving;
    }

    /** A save's completion sets the state only; the local tick is never reverted. */
    method CompleteSave(outcome: Outcome<Response<SaveBody>>)
      modifies this`uiState
      ensures uiState == SaveOutcomeState(outcome)
    {
      uiState := SaveOutcomeState(outcome);
    }

    /** The first question with this id, or null. */
    function GetQuestionById(questionId: string): (r: Option<Question>)
      reads this
      ensures r.None? <==> forall i :: 0 <= i < |questionsWithSelections| ==> questionsWithSelections[i].id != questionId
      ensures r.Some? ==> exists i :: FirstQuestionAt(questionsWithSelections, i, questionId)
                                       && questionsWithSelections[i] == r.value
    {
      FindQuestionSpec(questionsWithSelections, questionId);
      FindQuestion(questionsWithSelections, questionId)
    }
  }
}
