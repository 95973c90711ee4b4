/**
 * The vaccination book (MedicalRecordScreen.kt): the list of shots loaded for
 * the signed-in user, an "Đã tiêm" checkbox per shot that updates the list at
 * once and rolls back when the server call fails, and the spinner / error /
 * list dispatch of the screen.
 */
module Vaccinations {
  import opened Wrappers
  import opened Text
  import opened Remote

  /** `VaccinationData`. */
  datatype Vaccination = Vaccination(
    id: int, vaccineName: string, vaccinationDate: string, notes: string, location: string, isInjected: bool)

  const NoUserMessage := "Không tìm thấy userId, vui lòng đăng nhập lại."
  const LoadErrorPrefix := "Lỗi tải dữ liệu: "

  /** The `map { if (it.id == id) replacement else it }` both update paths use. */
  function ReplaceById(shots: seq<Vaccination>, id: int, replacement: Vaccination): seq<Vaccination> {
    seq(|shots|, i requires 0 <= i < |shots| => if shots[i].id == id then replacement else shots[i])
  }

  /** Every entry with the id becomes the replacement; every other entry stays as it was. */
  lemma ReplaceByIdSpec(shots: seq<Vaccination>, id: int, replacement: Vaccination)
    ensures var r := ReplaceById(shots, id, replacement);
      && |r| == |shots|
      && (forall i :: 0 <= i < |shots| && shots[i].id == id ==> r[i] == replacement)
      && (forall i :: 0 <= i < |shots| && shots[i].id != id ==> r[i] == shots[i])
  {
  }

  /** The entry a failed update writes back: the update with its flag flipped. */
  function Reverted(updated: Vaccination): Vaccination {
    updated.(isInjected := !updated.isInjected)
  }

  /** What the checkbox of a card hands to the view model: the shot with its new flag. */
  function CheckboxChange(shot: Vaccination, checked: bool): (r: Vaccination)
    ensures r.id == shot.id && r.isInjected == checked
    ensures r.(isInjected := shot.isInjected) == shot
  {
    shot.(isInjected := checked)
  }

  /**
   * Ticking or unticking a shot and then failing to save gives the list back as
   * it was, provided every entry carrying that id is the shot on the card.
   */
  lemma ToggleThenRevert(shots: seq<Vaccination>, shot: Vaccination)
    requires forall i :: 0 <= i < |shots| && shots[i].id == shot.id ==> shots[i] == shot
    ensures var updated := CheckboxChange(shot, !shot.isInjected);
      ReplaceById(ReplaceById(shots, shot.id, updated), shot.id, Reverted(updated)) == shots
  {
    var updated := CheckboxChange(shot, !shot.isInjected);
    var r := ReplaceById(ReplaceById(shots, shot.id, updated), shot.id, Reverted(updated));
    assert Reverted(updated) == shot;
    assert forall i :: 0 <= i < |shots| ==> r[i] == shots[i];
  }

  /**
   * `MedicalRecordViewModel`: `_vaccinationList`, `_isLoading` and `_errorMsg`.
   * A launched call is split into its synchronous start and a Complete* method
   * given the call's outcome.
   */
  class MedicalRecordViewModel {
    const userId: string
    var vaccinationList: seq<Vaccination>
    var isLoading: bool
    var errorMsg: Option<string>

    /** No shots, loading, no error. */
    constructor (userId: string)
      ensures this.userId == userId && vaccinationList == [] && isLoading && errorMsg == None
    {
      this.userId := userId;
      vaccinationList := [];
      isLoading := true;
      errorMsg := None;
    }

    /**
     * The start of `loadVaccinations`: with a blank user id it stops with an error
     * and no call; otherwise it clears the error and asks for the list.
     */
    method BeginLoad() returns (fetch: bool)
      modifies this`isLoading, this`errorMsg
      ensures fetch <==> !IsBlank(userId)
      ensures fetch ==> isLoading && errorMsg == None
      ensures !fetch ==> !isLoading && errorMsg == Some(NoUserMessage)
    {
      isLoading := true;
      errorMsg := None;
      if IsBlank(userId) {
        errorMsg := Some(NoUserMessage);
        isLoading := false;
        return false;
      }
      return true;
    }

    /** The end of `loadVaccinations`: the list or an error, and loading over either way. */
    method CompleteLoad(outcome: Outcome<seq<Vaccination>>)
      modifies this`vaccinationList, this`isLoading, this`errorMsg
      ensures !isLoading
      ensures outcome.Ok? ==> vaccinationList == outcome.value && errorMsg == old(errorMsg)
      ensures outcome.Fail? ==>
        vaccinationList == old(vaccinationList) && errorMsg == Some(LoadErrorPrefix + outcome.failure.message)
    {
      match outcome {
        case Ok(data) => vaccinationList := data;
        case Fail(e) => errorMsg := Some(LoadErrorPrefix + e.message);
      }
      isLoading := false;
    }

    /** The start of `updateVaccinationStatus`: the list shows the update before the call. */
    method BeginUpdate(updated: Vaccination)
      modifies this`vaccinationList
      ensures vaccinationList == ReplaceById(old(vaccinationList), updated.id, updated)
    {
      vaccinationList := ReplaceById(vaccinationList, updated.id, updated);
    }

    /** The end of `updateVaccinationStatus`: a failed call writes the flipped update back. */
    method CompleteUpdate(updated: Vaccination, failed: bool)
      modifies this`vaccinationList
      ensures failed ==> vaccinationList == ReplaceById(old(vaccinationList), updated.id, Reverted(updated))
      ensures !failed ==> vaccinationList == old(vaccinationList)
    {
      if failed {
        vaccinationList := ReplaceById(vaccinationList, updated.id, Reverted(updated));
      }
    }
  }

  /** What `VaccinationContent` shows. */
  datatype Content = Spinner | ErrorText(message: string) | ShotList(shots: seq<Vaccination>)

  /** Loading wins over an error, and an error hides the list. */
  function ShowContent(isLoading: bool, errorMsg: Option<string>, shots: seq<Vaccination>): (c: Content)
    ensures c.Spinner? <==> isLoading
    ensures c.ErrorText? <==> !isLoading && errorMsg.Some?
    ensures c.ErrorText? ==> c.message == errorMsg.value
    ensures c.ShotList? ==> c.shots == shots
  {
    if isLoading then Spinner
    else if errorMsg.Some? then ErrorText(errorMsg.value)
    else ShotList(shots)
  }

  /** A blank user id ends on the sign-in error, never on the list. */
  method LoadWithoutUser(vm: MedicalRecordViewModel)
    requires IsBlank(vm.userId)
    modifies vm`isLoading, vm`errorMsg
    ensures ShowContent(vm.isLoading, vm.errorMsg, vm.vaccinationList) == ErrorText(NoUserMessage)
  {
    var fetch := vm.BeginLoad();
  }

  /**
   * A failed load leaves the error on screen even though the previous list is
   * kept: the list comes back only with the next load that starts cleanly.
   */
  method FailedLoad(vm: MedicalRecordViewModel, failure: Failure)
    requires !IsBlank(vm.userId)
    modifies vm`vaccinationList, vm`isLoading, vm`errorMsg
    ensures vm.vaccinationList == old(vm.vaccinationList)
    ensures ShowContent(vm.isLoading, vm.errorMsg, vm.vaccinationList) == ErrorText(LoadErrorPrefix + failure.message)
  {
    var fetch := vm.BeginLoad();
    vm.CompleteLoad(Fail(failure));
  }

  /** The text lines of a shot's card; the notes line only when the notes are not blank. */
  function CardLines(shot: Vaccination): (lines: seq<string>)
    ensures |lines| == (if IsBlank(shot.notes) then 3 else 4)
    ensures lines[0] == shot.vaccineName
  {
    [shot.vaccineName, "📅Ngày tiêm: " + shot.vaccinationDate, "🏠 Địa điểm: " + shot.location]
    + (if IsBlank(shot.notes) then [] else ["📝Ghi chú: " + shot.notes])
  }
}
