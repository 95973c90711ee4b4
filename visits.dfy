/**
 * The prenatal-visit book (SoKhamThaiScreen.kt): the list of visits, a form to
 * add a visit or edit one, delete buttons, and the toasts each call ends with.
 */
module Visits {
  import opened Wrappers
  import opened Text
  import opened Remote

  /** `Visit`. */
  datatype Visit = Visit(
    visitId: string, userId: string, visitDate: string, doctorName: string, gestationalAge: string,
    weight: string, bloodPressure: string, fetalHeartRate: string, notes: Option<string>)

  /** The form's fields as sent. */
  datatype VisitFields = VisitFields(
    visitDate: string, doctorName: string, gestationalAge: string, weight: string,
    bloodPressure: string, fetalHeartRate: string, notes: string)

  /** `addVisit` or `updateVisit`. */
  datatype VisitRequest =
    | AddVisit(userId: string, fields: VisitFields)
    | UpdateVisit(visitId: string, userId: string, fields: VisitFields)

  const MissingFieldsToast := "Vui lòng điền đầy đủ thông tin bắt buộc"

  /** The six fields a visit needs; the note may be blank. */
  predicate RequiredFilled(f: VisitFields) {
    !IsBlank(f.visitDate) && !IsBlank(f.doctorName) && !IsBlank(f.gestationalAge)
    && !IsBlank(f.weight) && !IsBlank(f.bloodPressure) && !IsBlank(f.fetalHeartRate)
  }

  /** The toast of a failed `getVisits`. */
  function FetchErrorToast(f: Failure): string {
    match f
    case IoFailure(_) => "Lỗi mạng: Vui lòng kiểm tra kết nối internet."
    case HttpFailure(_, code, _) => "Lỗi server: " + IntToString(code) + ". Vui lòng thử lại sau."
    case OtherFailure(m) => "Đã xảy ra lỗi không xác định: " + m
  }

  /** The toast of a failed add or update. */
  function SendErrorToast(f: Failure): string {
    match f
    case IoFailure(_) => "Lỗi kết nối: Không thể gửi yêu cầu đến server."
    case HttpFailure(_, code, body) => "Lỗi phản hồi từ server: " + IntToString(code) + ". " + Template(body)
    case OtherFailure(m) => "Đã xảy ra lỗi: " + m
  }

  /** The toast of a failed delete. */
  function DeleteErrorToast(f: Failure): string {
    match f
    case IoFailure(_) => "Lỗi kết nối: Không thể xóa sổ khám thai."
    case HttpFailure(_, code, _) => "Lỗi server khi xóa: " + IntToString(code)
    case OtherFailure(m) => "Đã xảy ra lỗi: " + m
  }

  /** The text lines of a visit's card; a missing note reads "Không có". */
  function CardLines(v: Visit): (lines: seq<string>)
    ensures |lines| == 7
    ensures lines[6] == "📝 Ghi chú: " + v.notes.GetOr("Không có")
  {
    ["📅 Ngày khám: " + v.visitDate, "👩‍⚕️ Bác sĩ: " + v.doctorName,
     "🍼 Tuổi thai: " + v.gestationalAge + " tuần", "⚖️ Cân nặng: " + v.weight + " kg",
     "💓 Huyết áp: " + v.bloodPressure, "❤️ Tim thai: " + v.fetalHeartRate,
     "📝 Ghi chú: " + v.notes.GetOr("Không có")]
  }

  /** The screen's remembered state. */
  class VisitBook {
    const userId: string
    var fields: VisitFields
    var isEditing: bool
    var editId: string
    var showForm: bool
    var list: seq<Visit>

    /** The form heading: "🛠️ Cập nhật thông tin" only while editing. */
    function FormTitle(): string
      reads this
    {
      if isEditing then "🛠️ Cập nhật thông tin" else "📝 Thêm sổ khám thai"
    }

    constructor (userId: string)
      ensures this.userId == userId && fields == VisitFields("", "", "", "", "", "", "")
      ensures !isEditing && editId == "" && !showForm && list == []
    {
      this.userId := userId;
      fields := VisitFields("", "", "", "", "", "", "");
      isEditing := false;
      editId := "";
      showForm := false;
      list := [];
    }

    /** `clearForm()`: empty fields, not editing, form hidden; the list stays. */
    method ClearForm()
      modifies this`fields, this`isEditing, this`editId, this`showForm
      ensures fields == VisitFields("", "", "", "", "", "", "")
      ensures !isEditing && editId == "" && !showForm
    {
      fields := VisitFields("", "", "", "", "", "", "");
      isEditing := false;
      editId := "";
      showForm := false;
    }

    /** "➕ Thêm sổ khám thai": a cleared form, shown. */
    method OpenAddForm()
      modifies this`fields, this`isEditing, this`editId, this`showForm
      ensures fields == VisitFields("", "", "", "", "", "", "")
      ensures !isEditing && editId == "" && showForm
    {
      ClearForm();
      showForm := true;
    }

    /**
     * The edit button as written: it copies the visit into the form and records
     * its id, but leaves `isEditing` as it was.
     */
    method StartEditAsWritten(item: Visit)
      modifies this`fields, this`editId, this`showForm
      ensures fields == VisitFields(item.visitDate, item.doctorName, item.gestationalAge, item.weight,
                                    item.bloodPressure, item.fetalHeartRate, item.notes.GetOr(""))
      ensures editId == item.visitId && showForm && isEditing == old(isEditing)
    {
      fields := VisitFields(item.visitDate, item.doctorName, item.gestationalAge, item.weight,
                            item.bloodPressure, item.fetalHeartRate, item.notes.GetOr(""));
      editId := item.visitId;
      showForm := true;
    }

    /** The edit button as intended: the same, and the form switches to editing. */
    method StartEdit(item: Visit)
      modifies this`fields, this`isEditing, this`editId, this`showForm
      ensures fields == VisitFields(item.visitDate, item.doctorName, item.gestationalAge, item.weight,
                                    item.bloodPressure, item.fetalHeartRate, item.notes.GetOr(""))
      ensures editId == item.visitId && showForm && isEditing
    {
      StartEditAsWritten(item);
      isEditing := true;
    }

    /**
     * The form's save button: with a blank required field it only toasts;
     * otherwise it updates `editId` while editing and adds a new visit otherwise.
     */
    method Submit() returns (request: Option<VisitRequest>, toast: Option<string>)
      ensures request.None? <==> !RequiredFilled(fields)
      ensures request.None? ==> toast == Some(MissingFieldsToast)
      ensures request.Some? ==> toast.None?
      ensures request.Some? && isEditing ==> request.value == UpdateVisit(editId, userId, fields)
      ensures request.Some? && !isEditing ==> request.value == AddVisit(userId, fields)
    {
      if !RequiredFilled(fields) {
        return None, Some(MissingFieldsToast);
      }
      request := Some(if isEditing then UpdateVisit(editId, userId, fields) else AddVisit(userId, fields));
      toast := None;
    }

    /** The end of an add or update: toast the server's message; on success clear the form and reload. */
    method CompleteSend(outcome: Outcome<ApiResponse>) returns (toast: string, refetch: bool)
      modifies this`fields, this`isEditing, this`editId, this`showForm
      ensures refetch <==> outcome.Ok? && outcome.value.success
      ensures outcome.Ok? ==> toast == outcome.value.message
      ensures outcome.Fail? ==> toast == SendErrorToast(outcome.failure)
      ensures refetch ==> fields == VisitFields("", "", "", "", "", "", "") && !isEditing && editId == "" && !showForm
      ensures !refetch ==> fields == old(fields) && isEditing == old(isEditing) && editId == old(editId)
                           && showForm == old(showForm)
    {
      match outcome
      case Ok(response) =>
        toast := response.message;
        refetch := response.success;
        if refetch {
          ClearForm();
        }
      case Fail(e) =>
        toast := SendErrorToast(e);
        refetch := false;
    }

    /** The end of a delete: toast, and reload on success. */
    method CompleteDelete(outcome: Outcome<ApiResponse>) returns (toast: string, refetch: bool)
      ensures refetch <==> outcome.Ok? && outcome.value.success
      ensures outcome.Ok? ==> toast == outcome.value.message
      ensures outcome.Fail? ==> toast == DeleteErrorToast(outcome.failure)
    {
      match outcome
      case Ok(response) =>
        toast := response.message;
        refetch := response.success;
      case Fail(e) =>
        toast := DeleteErrorToast(e);
        refetch := false;
    }

    /** The end of `fetchList`: the list is replaced, or a toast leaves it as it was. */
    method CompleteFetch(outcome: Outcome<seq<Visit>>) returns (toast: Option<string>)
      modifies this`list
      ensures outcome.Ok? ==> list == outcome.value && toast.None?
      ensures outcome.Fail? ==> list == old(list) && toast == Some(FetchErrorToast(outcome.failure))
    {
      match outcome
      case Ok(visits) =>
        list := visits;
        toast := None;
      case Fail(e) =>
        toast := Some(FetchErrorToast(e));
    }
  }

  /** The form's fields after editing `item`. */
  function EditedFields(item: Visit): VisitFields {
    VisitFields(item.visitDate, item.doctorName, item.gestationalAge, item.weight,
                item.bloodPressure, item.fetalHeartRate, item.notes.GetOr(""))
  }

  /**
   * As written, nothing ever sets `isEditing`: starting from a fresh screen,
   * editing a complete visit and saving it sends `addVisit`, so the visit is
   * added a second time instead of being updated, under the add-form heading.
   */
  method EditThenSubmitAsWritten(userId: string, item: Visit) returns (request: Option<VisitRequest>)
    requires RequiredFilled(EditedFields(item))
    ensures request == Some(AddVisit(userId, EditedFields(item)))
  {
    var book := new VisitBook(userId);
    book.StartEditAsWritten(item);
    assert book.FormTitle() == "📝 Thêm sổ khám thai";
    var toast;
    request, toast := book.Submit();
  }

  /** As intended, editing a complete visit and saving it updates that visit. */
  method EditThenSubmit(userId: string, item: Visit) returns (request: Option<VisitRequest>)
    requires RequiredFilled(EditedFields(item))
    ensures request == Some(UpdateVisit(item.visitId, userId, EditedFields(item)))
  {
    var book := new VisitBook(userId);
    book.StartEdit(item);
    var toast;
    request, toast := book.Submit();
  }
}
