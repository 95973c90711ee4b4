/**
 * The crisis-week screen (CrisisWeekScreen.kt): the user's crisis-week notes
 * fetched once on entry, an error with a retry button, an empty-list text, and
 * one card per note.
 */
module CrisisWeeks {
  import opened Wrappers
  import opened Text
  import opened Remote

  /** `CrisisWeek`; every field may be null. */
  datatype CrisisWeek = CrisisWeek(id: Option<int>, userId: Option<int>, week: Option<int>,
                                   title: Option<string>, description: Option<string>, createdAt: Option<string>)

  const LoadErrorMessage := "Không thể tải thông tin tuần khủng hoảng. Vui lòng thử lại."
  const EmptyMessage := "Không có thông tin tuần khủng hoảng nào để hiển thị."
  const NoTitle := "Không có tiêu đề"
  const WeekPrefix := "Tuần "
  const UpdatedPrefix := "Cập nhật cuối: "

  /** The screen's remembered state. */
  class CrisisWeekScreen {
    const userId: string
    var crisisWeeks: seq<CrisisWeek>
    var isLoading: bool
    var errorMessage: Option<string>

    /** Loading from the start, with no error and no notes. */
    constructor (userId: string)
      ensures this.userId == userId && crisisWeeks == [] && isLoading && errorMessage == None
    {
      this.userId := userId;
      crisisWeeks := [];
      isLoading := true;
      errorMessage := None;
    }

    /** The end of `fetchData`: the notes and no error, or the fixed error and the old notes. */
    method CompleteFetch(outcome: Outcome<seq<CrisisWeek>>)
      modifies this`crisisWeeks, this`isLoading, this`errorMessage
      ensures !isLoading
      ensures outcome.Ok? ==> crisisWeeks == outcome.value && errorMessage == None
      ensures outcome.Fail? ==> crisisWeeks == old(crisisWeeks) && errorMessage == Some(LoadErrorMessage)
    {
      match outcome {
        case Ok(data) =>
          crisisWeeks := data;
          isLoading := false;
          errorMessage := None;
        case Fail(_) =>
          errorMessage := Some(LoadErrorMessage);
          isLoading := false;
      }
    }

    /** "Thử lại", offered only on the error view: loading again, with no error and no old notes. */
    method Retry()
      requires Render(isLoading, errorMessage, crisisWeeks).ErrorRetry?
      modifies this`crisisWeeks, this`isLoading, this`errorMessage
      ensures isLoading && errorMessage == None && crisisWeeks == []
    {
      isLoading := true;
      errorMessage := None;
      crisisWeeks := [];
    }
  }

  /**
   * The card's heading: with a week, "Tuần N: " and the title or "Không có
   * tiêu đề"; without a week, the title alone; with neither, no heading.
   * The length clause, with the prefix here and the suffix in
   * `TitleLineKeepsTitle`, says that nothing lies between the two.
   */
  function TitleLine(week: Option<int>, title: Option<string>): (line: Option<string>)
    ensures line.Some? <==> week.Some? || title.Some?
    ensures week.None? ==> line == title
    ensures week.Some? ==> line.Some? && StartsWith(line.value, WeekPrefix + IntToString(week.value) + ": ")
    ensures week.Some? ==> line.Some? && |line.value| == |WeekPrefix + IntToString(week.value) + ": "| + |title.GetOr(NoTitle)|
  {
    match week
    case Some(w) =>
      var head := WeekPrefix + IntToString(w) + ": ";
      var line := head + title.GetOr(NoTitle);
      assert line[..|head|] == head;
      Some(line)
    case None => title
  }

  /** Whenever a title is present, the heading ends with it; a missing title under a week reads "Không có tiêu đề". */
  lemma TitleLineKeepsTitle(week: Option<int>, title: Option<string>)
    ensures title.Some? ==>
      var line := TitleLine(week, title);
      && line.Some? && |title.value| <= |line.value|
      && line.value[|line.value| - |title.value|..] == title.value
    ensures week.Some? && title.None? ==>
      var line := TitleLine(week, title);
      && line.Some? && |NoTitle| <= |line.value|
      && line.value[|line.value| - |NoTitle|..] == NoTitle
  {
    if week.Some? {
      var head := WeekPrefix + IntToString(week.value) + ": ";
      var tail := title.GetOr(NoTitle);
      assert (head + tail)[|head + tail| - |tail|..] == tail;
    }
  }

  /** `"Cập nhật cuối: " + createdAt.substringBefore(" ")`, when there is a date. */
  function UpdatedLine(createdAt: Option<string>): (line: Option<string>)
    ensures line.Some? <==> createdAt.Some?
    ensures line.Some? ==> |UpdatedPrefix| <= |line.value| && StartsWith(line.value, UpdatedPrefix)
    ensures line.Some? ==>
      var date := line.value[|UpdatedPrefix|..];
      && StartsWith(createdAt.value, date) && ' ' !in date
      && (|date| == |createdAt.value| || createdAt.value[|date|] == ' ')
  {
    match createdAt
    case None => None
    case Some(s) =>
      var date := SubstringBefore(s, ' ');
      assert (UpdatedPrefix + date)[|UpdatedPrefix|..] == date;
      Some(UpdatedPrefix + date)
  }

  /** What `CrisisWeekCard` shows: heading, description and date line, each when present. */
  datatype Card = Card(heading: Option<string>, description: Option<string>, updated: Option<string>)

  function CrisisWeekCard(c: CrisisWeek): Card {
    Card(TitleLine(c.week, c.title), c.description, UpdatedLine(c.createdAt))
  }

  /** What the screen's body shows. */
  datatype View = Spinner | ErrorRetry(message: string) | EmptyText(text: string) | CardList(cards: seq<Card>)

  /** Loading, then an error with its retry button, then the empty text, then the cards. */
  function Render(isLoading: bool, errorMessage: Option<string>, crisisWeeks: seq<CrisisWeek>): (v: View)
    ensures v.Spinner? <==> isLoading
    ensures v.ErrorRetry? <==> !isLoading && errorMessage.Some?
    ensures v.ErrorRetry? ==> v.message == errorMessage.value
    ensures v.EmptyText? <==> !isLoading && errorMessage.None? && crisisWeeks == []
    ensures v.EmptyText? ==> v.text == EmptyMessage
    ensures v.CardList? ==>
      |v.cards| == |crisisWeeks| && forall i :: 0 <= i < |crisisWeeks| ==> v.cards[i] == CrisisWeekCard(crisisWeeks[i])
  {
    if isLoading then Spinner
    else if errorMessage.Some? then ErrorRetry(errorMessage.value)
    else if crisisWeeks == [] then EmptyText(EmptyMessage)
    else CardList(seq(|crisisWeeks|, i requires 0 <= i < |crisisWeeks| => CrisisWeekCard(crisisWeeks[i])))
  }

  /** A retry that succeeds shows exactly the new notes, or the empty text when there are none. */
  method RetryThenLoad(screen: CrisisWeekScreen, data: seq<CrisisWeek>)
    requires Render(screen.isLoading, screen.errorMessage, screen.crisisWeeks).ErrorRetry?
    modifies screen`crisisWeeks, screen`isLoading, screen`errorMessage
    ensures screen.crisisWeeks == data
    ensures data == [] ==> Render(screen.isLoading, screen.errorMessage, screen.crisisWeeks) == EmptyText(EmptyMessage)
    ensures data != [] ==> Render(screen.isLoading, screen.errorMessage, screen.crisisWeeks).CardList?
  {
    screen.Retry();
    screen.CompleteFetch(Ok(data));
  }
}
