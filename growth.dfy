/**
 * The fetal-growth screen (GrowthScreen.kt): the user's growth records loaded
 * by `GrowthViewModel`, a row of forty week circles, and the card of the
 * record for the selected week.
 */
module Growth {
  import opened Wrappers
  import opened Text
  import opened Remote

  /** `GrowthModel`; every field but the id may be null. */
  datatype GrowthRecord = GrowthRecord(
    id: int, userId: Option<int>, week: Option<string>, weight: Option<string>, length: Option<string>,
    image: Option<string>, description: Option<string>, dueDate: Option<string>, createdAt: Option<string>)

  const LoadErrorPrefix := "Không tải được dữ liệu: "
  const NoDataPrefix := "Chưa có dữ liệu cho tuần "
  /** The image host, written in the source with a leading space. */
  const BaseUrl := " " + ApiRoot
  const Placeholder := "--"
  const WeekCount := 40

  /**
   * `GrowthViewModel`: `_growthData`, `_isLoading` and `_errorMsg`; `reload` is
   * split into its synchronous start and its end given the call's outcome.
   */
  class GrowthViewModel {
    const userId: string
    var growthData: seq<GrowthRecord>
    var isLoading: bool
    var errorMsg: Option<string>

    constructor (userId: string)
      ensures this.userId == userId && growthData == [] && !isLoading && errorMsg == None
    {
      this.userId := userId;
      growthData := [];
      isLoading := false;
      errorMsg := None;
    }

    /** The start of `reload`: loading, and any old error cleared. */
    method BeginReload()
      modifies this`isLoading, this`errorMsg
      ensures isLoading && errorMsg == None
    {
      isLoading := true;
      errorMsg := None;
    }

    /** The end of `reload`: the records or an error, and loading over either way. */
    method CompleteReload(outcome: Outcome<seq<GrowthRecord>>)
      modifies this`growthData, this`isLoading, this`errorMsg
      ensures !isLoading
      ensures outcome.Ok? ==> growthData == outcome.value && errorMsg == old(errorMsg)
      ensures outcome.Fail? ==>
        growthData == old(growthData) && errorMsg == Some(LoadErrorPrefix + outcome.failure.message)
    {
      match outcome {
        case Ok(data) => growthData := data;
        case Fail(e) => errorMsg := Some(LoadErrorPrefix + e.message);
      }
      isLoading := false;
    }
  }

  /** A record belongs to week `w` when its week text parses to `w`. */
  predicate IsForWeek(r: GrowthRecord, w: int) {
    r.week.Some? && ParseInt(r.week.value) == Some(w)
  }

  /** `firstOrNull { it.week?.toIntOrNull() == selectedWeek }`. */
  function FindWeek(data: seq<GrowthRecord>, w: int): (r: Option<GrowthRecord>)
    ensures r.Some? ==> r.value in data && IsForWeek(r.value, w)
  {
    if data == [] then None
    else if IsForWeek(data[0], w) then Some(data[0])
    else FindWeek(data[1..], w)
  }

  /** The record found is the first one for the week, and none is found only when there is none. */
  lemma {:induction false} FindWeekSpec(data: seq<GrowthRecord>, w: int)
    ensures FindWeek(data, w).None? <==> forall i :: 0 <= i < |data| ==> !IsForWeek(data[i], w)
    ensures FindWeek(data, w).Some? ==>
      exists i :: 0 <= i < |data| && data[i] == FindWeek(data, w).value
        && forall j :: 0 <= j < i ==> !IsForWeek(data[j], w)
  {
    if data != [] && !IsForWeek(data[0], w) {
      FindWeekSpec(data[1..], w);
      if FindWeek(data, w).Some? {
        var i :| 0 <= i < |data[1..]| && data[1..][i] == FindWeek(data, w).value
          && forall j :: 0 <= j < i ==> !IsForWeek(data[1..][j], w);
        assert data[i + 1] == FindWeek(data, w).value;
        assert forall j :: 0 <= j < i + 1 ==> !IsForWeek(data[j], w) by {
          forall j | 0 <= j < i + 1
            ensures !IsForWeek(data[j], w)
          {
            if j > 0 {
              assert data[j] == data[1..][j - 1];
            }
          }
        }
      } else {
        assert forall i :: 0 <= i < |data| ==> !IsForWeek(data[i], w) by {
          forall i | 0 <= i < |data|
            ensures !IsForWeek(data[i], w)
          {
            if i > 0 {
              assert data[i] == data[1..][i - 1];
            }
          }
        }
      }
    } else if data != [] {
      assert data[0] == FindWeek(data, w).value;
    }
  }

  /** A week stored as its plain number, or with a leading zero, is found for that week. */
  lemma WeekTextMatches(r: GrowthRecord, w: nat)
    requires 1 <= w <= WeekCount
    ensures r.week == Some(IntToString(w)) ==> IsForWeek(r, w)
    ensures w < 10 && r.week == Some("0" + IntToString(w)) ==> IsForWeek(r, w)
  {
    ParseIntOfIntToString(w);
    if w < 10 && r.week == Some("0" + IntToString(w)) {
      ParseTwoDigits(r.week.value);
    }
  }

  /** A week text with surrounding spaces does not parse, so its record is never shown. */
  lemma PaddedWeekNeverMatches(r: GrowthRecord, w: int)
    requires r.week.Some? && |r.week.value| > 0 && r.week.value[0] == ' '
    ensures !IsForWeek(r, w)
  {
    var s := r.week.value;
    assert !IsDigit(s[0]);
    if |s| > 1 && (s[0] == '-' || s[0] == '+') {
    }
  }

  /** `d.image?.let { if (it.startsWith("http")) it else baseUrl + it } ?: ""`. */
  function ImageUrl(image: Option<string>): (url: string)
    ensures image.None? ==> url == ""
    ensures image.Some? ==> EndsWith(url, image.value)
    ensures image.Some? ==> (url == image.value <==> StartsWith(image.value, "http"))
    ensures image.Some? && url != image.value ==> StartsWith(url, BaseUrl) && |url| == |BaseUrl| + |image.value|
  {
    match image
    case None => ""
    case Some(s) => if StartsWith(s, "http") then s else BaseUrl + s
  }

  /**
   * The image is drawn exactly when the record has an image field; a relative
   * path becomes an address that starts with a space.
   */
  lemma ImageShownIff(image: Option<string>)
    ensures !IsBlank(ImageUrl(image)) <==> image.Some?
    ensures image.Some? && !StartsWith(image.value, "http") ==> ImageUrl(image)[0] == ' '
  {
    if image.Some? {
      var url := ImageUrl(image);
      if StartsWith(image.value, "http") {
        assert url[0] == 'h';
      } else {
        assert BaseUrl[1] == 'h';
        assert url[1] == BaseUrl[1];
      }
      assert !IsWhitespace(url[0]) || !IsWhitespace(url[1]);
    }
  }

  /** One `InfoRow`: icon, caption, value. */
  datatype InfoRow = InfoRow(icon: string, caption: string, value: string)

  /** `DetailCard`: the image, when there is one, and the three info rows. */
  datatype Card = Card(image: Option<string>, rows: seq<InfoRow>)

  function DetailCard(d: GrowthRecord): (c: Card)
    ensures c.image.Some? <==> d.image.Some?
    ensures c.image.Some? ==> c.image.value == ImageUrl(d.image)
    ensures |c.rows| == 3
    ensures c.rows[0].value == d.length.GetOr(Placeholder)
    ensures c.rows[1].value == d.weight.GetOr(Placeholder)
    ensures c.rows[2].value == d.description.GetOr(Placeholder)
  {
    ImageShownIff(d.image);
    var url := ImageUrl(d.image);
    Card(if !IsBlank(url) then Some(url) else None,
         [InfoRow("📏", "Chiều cao", d.length.GetOr(Placeholder)),
          InfoRow("⚖️", "Cân nặng", d.weight.GetOr(Placeholder)),
          InfoRow("📝", "Mô tả", d.description.GetOr(Placeholder))])
  }

  /** What the screen shows below the week row. */
  datatype View = Spinner | ErrorText(message: string) | NoData(text: string) | Detail(card: Card)

  /** Loading wins, then a non-empty error, then the selected week's record or a "no data" line. */
  function Render(isLoading: bool, errorMsg: Option<string>, data: seq<GrowthRecord>, selectedWeek: int): (v: View)
    ensures v.Spinner? <==> isLoading
    ensures v.ErrorText? <==> !isLoading && errorMsg.Some? && errorMsg.value != ""
    ensures v.ErrorText? ==> v.message == errorMsg.value
    ensures v.NoData? ==>
      v.text == NoDataPrefix + IntToString(selectedWeek) && FindWeek(data, selectedWeek).None?
    ensures v.Detail? ==> FindWeek(data, selectedWeek).Some? && v.card == DetailCard(FindWeek(data, selectedWeek).value)
  {
    if isLoading then Spinner
    else if errorMsg.Some? && errorMsg.value != "" then ErrorText(errorMsg.value)
    else
      match FindWeek(data, selectedWeek)
      case None => NoData(NoDataPrefix + IntToString(selectedWeek))
      case Some(info) => Detail(DetailCard(info))
  }

  /** `iconForWeek`: nine fruits for weeks 1 to 9, a pineapple from week 10 on. */
  function IconForWeek(week: int): (icon: string)
    ensures (week < 1 || week > 9) <==> icon == "🍍"
  {
    match week
    case 1 => "🟢"
    case 2 => "🍒"
    case 3 => "🍊"
    case 4 => "🍋"
    case 5 => "🍓"
    case 6 => "🥑"
    case 7 => "🌽"
    case 8 => "🥕"
    case 9 => "🍆"
    case _ => "🍍"
  }

  /** Each of weeks 1 to 9 has an icon of its own. */
  lemma IconsDistinct(a: int, b: int)
    requires 1 <= a <= 9 && 1 <= b <= 9 && a != b
    ensures IconForWeek(a) != IconForWeek(b)
  {
  }

  /** The screen's own state: the selected week, one of the forty circles. */
  class GrowthScreenState {
    var selectedWeek: int

    predicate Valid()
      reads this
    {
      1 <= selectedWeek <= WeekCount
    }

    /** Week 1 is selected at first. */
    constructor ()
      ensures Valid() && selectedWeek == 1
    {
      selectedWeek := 1;
    }

    /** The index the week row scrolls to: the selected circle's position. */
    function ScrollIndex(): (i: int)
      reads this
      requires Valid()
      ensures 0 <= i < WeekCount && i + 1 == selectedWeek
    {
      selectedWeek - 1
    }

    /** The circle of week `w` is drawn selected. */
    predicate IsSelected(w: int)
      reads this
    {
      w == selectedWeek
    }

    /** Clicking the circle of week `w`: exactly that circle becomes the selected one. */
    method ClickWeek(w: int)
      requires Valid() && 1 <= w <= WeekCount
      modifies this
      ensures Valid() && selectedWeek == w
      ensures forall u :: IsSelected(u) <==> u == w
    {
      selectedWeek := w;
    }
  }
}
