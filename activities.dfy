/**
 * The daily prenatal-education checklist (ShopScreen.kt): five fixed activities,
 * the server's rows for today laid over them, a "Hoàn thành" button per activity
 * that saves at once and is rolled back when the save fails, and the progress
 * header counting the activities done.
 */
module Activities {
  import opened Wrappers
  import opened Text
  import opened Remote

  /** `ActivityModel`. */
  datatype Activity = Activity(title: string, isDone: bool, desc: string)

  /** `ActivityResponse`: one row of today's activities on the server. */
  datatype ActivityRow = ActivityRow(activityTitle: string, description: string, isDone: int)

  const DoneText := "Đã hoàn thành"
  const NotDoneText := "Chưa hoàn thành"
  const CounterSuffix := " hoạt động trong ngày"

  /** The activities every day offers, in display order. */
  const MasterList: seq<string> := ["📖 Kể chuyện", "🎵 Thai giáo âm thanh", "🎨 Nghệ thuật", "🎬 Xem phim", "💄 Làm đẹp"]

  /** `defaultActivities()`: every activity present and not done. */
  function DefaultActivities(): seq<Activity> {
    seq(|MasterList|, i requires 0 <= i < |MasterList| => Activity(MasterList[i], false, NotDoneText))
  }

  /** A server row as an activity: a done row shows "Đã hoàn thành" instead of its description. */
  function FromRow(row: ActivityRow): Activity {
    Activity(row.activityTitle, row.isDone == 1, if row.isDone == 1 then DoneText else row.description)
  }

  /** Row `i` is the last row with its title. */
  ghost predicate LastWithTitle(rows: seq<ActivityRow>, i: int) {
    0 <= i < |rows| && forall j :: i < j < |rows| ==> rows[j].activityTitle != rows[i].activityTitle
  }

  /** `associate { it.activity_title to … }`: one entry per title, the last row winning. */
  function Associate(rows: seq<ActivityRow>): (m: map<string, Activity>)
    ensures forall t :: t in m ==> m[t].title == t
  {
    if rows == [] then map[]
    else Associate(rows[..|rows| - 1])[rows[|rows| - 1].activityTitle := FromRow(rows[|rows| - 1])]
  }

  /** A title has an entry exactly when some row carries it. */
  lemma {:induction false} AssociateKeys(rows: seq<ActivityRow>, t: string)
    ensures t in Associate(rows) <==> exists i :: 0 <= i < |rows| && rows[i].activityTitle == t
  {
    if rows != [] {
      var init := rows[..|rows| - 1];
      AssociateKeys(init, t);
      if exists i :: 0 <= i < |init| && init[i].activityTitle == t {
        var i :| 0 <= i < |init| && init[i].activityTitle == t;
        assert rows[i] == init[i];
      }
      if exists i :: 0 <= i < |rows| && rows[i].activityTitle == t {
        var i :| 0 <= i < |rows| && rows[i].activityTitle == t;
        if i < |init| { assert init[i] == rows[i]; }
      }
    }
  }

  /** The entry for a title is built from the last row with that title. */
  lemma {:induction false} AssociateLast(rows: seq<ActivityRow>, i: int)
    requires LastWithTitle(rows, i)
    ensures rows[i].activityTitle in Associate(rows)
    ensures Associate(rows)[rows[i].activityTitle] == FromRow(rows[i])
  {
    var n := |rows| - 1;
    if i < n {
      var init := rows[..n];
      assert init[i] == rows[i];
      assert LastWithTitle(init, i) by {
        forall j | i < j < |init| ensures init[j].activityTitle != init[i].activityTitle {
          assert init[j] == rows[j];
        }
      }
      AssociateLast(init, i);
    }
  }

  /** The list a fetch of today's rows produces. */
  function Loaded(rows: seq<ActivityRow>): seq<Activity> {
    if rows == [] then DefaultActivities()
    else
      var m := Associate(rows);
      seq(|MasterList|, i requires 0 <= i < |MasterList| =>
        if MasterList[i] in m then m[MasterList[i]] else Activity(MasterList[i], false, NotDoneText))
  }

  /**
   * Whatever the server sends, the list is the five activities in master order;
   * an activity with server rows takes the last of them, one without is shown
   * not done, and rows for other titles are dropped. The empty answer and the
   * defaults agree.
   */
  lemma LoadedSpec(rows: seq<ActivityRow>)
    ensures var a := Loaded(rows);
      && |a| == |MasterList|
      && (forall i :: 0 <= i < |a| ==> a[i].title == MasterList[i])
      && (forall i :: 0 <= i < |a| && a[i].isDone ==> a[i].desc == DoneText)
      && (forall i, j :: 0 <= i < |a| && LastWithTitle(rows, j) && rows[j].activityTitle == MasterList[i] ==>
            a[i] == FromRow(rows[j]))
      && (forall i :: 0 <= i < |a| && (forall j :: 0 <= j < |rows| ==> rows[j].activityTitle != MasterList[i]) ==>
            a[i] == Activity(MasterList[i], false, NotDoneText))
  {
    var a := Loaded(rows);
    if rows != [] {
      var m := Associate(rows);
      forall i | 0 <= i < |a| && a[i].isDone ensures a[i].desc == DoneText {
        AssociateKeys(rows, MasterList[i]);
        if MasterList[i] in m {
          var j :| 0 <= j < |rows| && rows[j].activityTitle == MasterList[i];
          var k := LastIndexFrom(rows, j);
          AssociateLast(rows, k);
        }
      }
      forall i, j | 0 <= i < |a| && LastWithTitle(rows, j) && rows[j].activityTitle == MasterList[i]
        ensures a[i] == FromRow(rows[j])
      {
        AssociateLast(rows, j);
      }
      forall i | 0 <= i < |a| && (forall j :: 0 <= j < |rows| ==> rows[j].activityTitle != MasterList[i])
        ensures a[i] == Activity(MasterList[i], false, NotDoneText)
      {
        AssociateKeys(rows, MasterList[i]);
      }
    }
  }

  /** The last row sharing the title of row `j`. */
  lemma LastIndexFrom(rows: seq<ActivityRow>, j: int) returns (k: int)
    requires 0 <= j < |rows|
    ensures j <= k && LastWithTitle(rows, k) && rows[k].activityTitle == rows[j].activityTitle
    decreases |rows| - j
  {
    if exists j' :: j < j' < |rows| && rows[j'].activityTitle == rows[j].activityTitle {
      var j' :| j < j' < |rows| && rows[j'].activityTitle == rows[j].activityTitle;
      k := LastIndexFrom(rows, j');
    } else {
      k := j;
    }
  }

  /** `acts.count { it.isDone }`. */
  function DoneCount(acts: seq<Activity>): (n: nat)
    ensures n <= |acts|
  {
    if acts == [] then 0 else (if acts[0].isDone then 1 else 0) + DoneCount(acts[1..])
  }

  /** Replacing one entry changes the count by what that entry contributes. */
  lemma {:induction false} DoneCountUpdate(acts: seq<Activity>, index: int, a: Activity)
    requires 0 <= index < |acts|
    ensures DoneCount(acts[index := a]) + (if acts[index].isDone then 1 else 0)
         == DoneCount(acts) + (if a.isDone then 1 else 0)
  {
    if index > 0 {
      assert acts[index := a][1..] == acts[1..][index - 1 := a];
      DoneCountUpdate(acts[1..], index - 1, a);
    }
  }

  /** The entry a failed save writes back: the flag flipped and the text "Chưa hoàn thành". */
  function Reverted(updated: Activity): Activity {
    updated.(isDone := !updated.isDone, desc := NotDoneText)
  }

  /** The update the "Hoàn thành" button sends; the button exists only for an activity not yet done. */
  function DoneButton(act: Activity): (r: Option<Activity>)
    ensures r.Some? <==> !act.isDone
    ensures r.Some? ==> r.value == Activity(act.title, true, DoneText)
  {
    if act.isDone then None else Some(act.(isDone := true, desc := DoneText))
  }

  /**
   * A failed save after the button restores the flag, but gives back the original
   * entry only when its text was "Chưa hoàn thành": a description from the server
   * is replaced.
   */
  lemma RevertAfterDone(act: Activity)
    requires !act.isDone
    ensures Reverted(DoneButton(act).value).isDone == act.isDone
    ensures Reverted(DoneButton(act).value) == act <==> act.desc == NotDoneText
  {
  }

  /** The header's "%02d/%02d hoạt động trong ngày". */
  function ProgressCounter(done: nat, total: nat): string {
    PadTwo(done) + "/" + PadTwo(total) + CounterSuffix
  }

  /**
   * The counter starts with two numbers, each padded to width two and no further,
   * that read back as done and total.
   */
  lemma ProgressCounterSpec(done: nat, total: nat)
    ensures exists a, b ::
      && ProgressCounter(done, total) == a + "/" + b + CounterSuffix
      && |a| >= 2 && |b| >= 2 && AllDigits(a) && AllDigits(b) && DigitsValue(a) == done && DigitsValue(b) == total
      && (|a| == 2 || a[0] != '0') && (|b| == 2 || b[0] != '0')
  {
    PadTwoSpec(done);
    PadTwoSpec(total);
    assert ProgressCounter(done, total) == PadTwo(done) + "/" + PadTwo(total) + CounterSuffix;
  }

  const DayLabelPrefix: string := "Thai giáo ngày thứ "

  /** `ShopViewModel`: the list, the server's completion percentage and the day number. */
  class ShopViewModel {
    const userId: string
    var activities: seq<Activity>
    var completionPercent: int
    var activityDayIndex: int

    /** The day number shown ("Thai giáo ngày thứ N") is never below 1. */
    predicate Valid()
      reads this
    {
      activityDayIndex >= 1
    }

    /**
     * The heading "Thai giáo ngày thứ N": the day number is written after the prefix
     * in plain digits, without a sign or a leading zero, and reads back as the index.
     */
    function DayLabel(): (heading: string)
      reads this
      requires Valid()
      ensures StartsWith(heading, DayLabelPrefix)
      ensures var n := heading[|DayLabelPrefix|..];
        && |n| >= 1 && AllDigits(n) && n[0] != '0' && DigitsValue(n) == activityDayIndex
    {
      var heading := DayLabelPrefix + IntToString(activityDayIndex);
      assert heading[|DayLabelPrefix|..] == NatToString(activityDayIndex);
      DigitsValueOfNatToString(activityDayIndex);
      heading
    }

    /** `doneToday`: the number of activities done, recomputed whenever the list changes. */
    function DoneToday(): nat
      reads this
    {
      DoneCount(activities)
    }

    constructor (userId: string)
      ensures Valid()
      ensures this.userId == userId && activities == [] && completionPercent == 0 && activityDayIndex == 1
    {
      this.userId := userId;
      activities := [];
      completionPercent := 0;
      activityDayIndex := 1;
    }

    method ResetToDefaults()
      modifies this`activities, this`completionPercent, this`activityDayIndex
      ensures Valid()
      ensures activities == DefaultActivities() && completionPercent == 0 && activityDayIndex == 1
    {
      activities := DefaultActivities();
      completionPercent := 0;
      activityDayIndex := 1;
    }

    /**
     * `loadData`: today's rows, then the completion percentage, then the day index,
     * each given as the outcome of its call. The first failure resets all three.
     */
    method LoadData(rows: Outcome<seq<ActivityRow>>, completion: Outcome<int>, dayIndex: Outcome<int>)
      modifies this`activities, this`completionPercent, this`activityDayIndex
      ensures Valid()
      ensures rows.Ok? && completion.Ok? && dayIndex.Ok? ==>
        && activities == Loaded(rows.value)
        && completionPercent == completion.value
        && activityDayIndex == (if dayIndex.value < 1 then 1 else dayIndex.value)
      ensures !(rows.Ok? && completion.Ok? && dayIndex.Ok?) ==>
        activities == DefaultActivities() && completionPercent == 0 && activityDayIndex == 1
    {
      match rows
      case Fail(_) => ResetToDefaults();
      case Ok(r) =>
        activities := Loaded(r);
        match completion
        case Fail(_) => ResetToDefaults();
        case Ok(p) =>
          completionPercent := p;
          match dayIndex
          case Fail(_) => ResetToDefaults();
          case Ok(d) =>
            activityDayIndex := if d < 1 then 1 else d;
    }

    /** The synchronous part of `updateActivityStatus`: the entry is replaced at once. */
    method BeginUpdate(index: int, updated: Activity)
      requires 0 <= index < |activities|
      modifies this`activities
      ensures activities == old(activities)[index := updated]
      ensures DoneToday() + (if old(activities)[index].isDone then 1 else 0)
           == old(DoneToday()) + (if updated.isDone then 1 else 0)
    {
      DoneCountUpdate(activities, index, updated);
      activities := activities[index := updated];
    }

    /**
     * The save's completion: on success the server's percentage is taken; on
     * failure the entry at `index` is overwritten with the reverted update.
     */
    method CompleteUpdate(index: int, updated: Activity, saved: Outcome<int>)
      requires 0 <= index < |activities|
      modifies this`activities, this`completionPercent
      ensures saved.Ok? ==> completionPercent == saved.value && activities == old(activities)
      ensures saved.Fail? ==>
        completionPercent == old(completionPercent) && activities == old(activities)[index := Reverted(updated)]
    {
      match saved
      case Ok(p) => completionPercent := p;
      case Fail(_) => activities := activities[index := Reverted(updated)];
    }
  }

  /**
   * Pressing "Hoàn thành" on an activity not yet done counts it at once; when the
   * save then fails, the count is back where it was.
   */
  method PressDone(vm: ShopViewModel, index: int, saved: Outcome<int>)
    requires 0 <= index < |vm.activities| && !vm.activities[index].isDone
    modifies vm`activities, vm`completionPercent
    ensures |vm.activities| == |old(vm.activities)|
    ensures vm.activities[index].title == old(vm.activities)[index].title
    ensures saved.Ok? ==> vm.DoneToday() == old(vm.DoneToday()) + 1 && vm.activities[index].isDone
    ensures saved.Fail? ==> vm.DoneToday() == old(vm.DoneToday()) && !vm.activities[index].isDone
  {
    var updated := DoneButton(vm.activities[index]).value;
    vm.BeginUpdate(index, updated);
    ghost var afterTap := vm.activities;
    vm.CompleteUpdate(index, updated, saved);
    if saved.Fail? {
      DoneCountUpdate(afterTap, index, Reverted(updated));
    }
  }
}
