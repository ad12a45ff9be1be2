/**
 * What the sports page derives from the store: the visible activities (type
 * filter, newest first), this week's totals, the seven-day chart, the draft
 * built by the add form, and the icon shown for an activity type.
 */
module SportsPage {
  import opened Wrappers
  import Seqs
  import Text
  import Sports
  import DashboardPage

  /** The `value` of each entry of `activityTypes`, as stored in an activity's `type`. */
  function TypeName(t: Sports.ActivityType): string {
    match t
    case Running => "running"
    case Cycling => "cycling"
    case Swimming => "swimming"
    case Gym => "gym"
    case Yoga => "yoga"
    case Hiking => "hiking"
    case OtherSport => "other"
  }

  /** The icon shown when no entry of `activityTypes` matches. */
  const Fallback: string := "\U{26A1}"

  /** `activityTypes`: each type's value and icon, in the page's order. */
  const ActivityTypes: seq<(string, string)> := [
    ("running", "\U{1F3C3}"),
    ("cycling", "\U{1F6B4}"),
    ("swimming", "\U{1F3CA}"),
    ("gym", "\U{1F3CB}\U{FE0F}"),
    ("yoga", "\U{1F9D8}"),
    ("hiking", "\U{1F97E}"),
    ("other", Fallback)
  ]

  /** The icon of each type, written out type by type. */
  function IconOf(t: Sports.ActivityType): string {
    match t
    case Running => "\U{1F3C3}"
    case Cycling => "\U{1F6B4}"
    case Swimming => "\U{1F3CA}"
    case Gym => "\U{1F3CB}\U{FE0F}"
    case Yoga => "\U{1F9D8}"
    case Hiking => "\U{1F97E}"
    case OtherSport => Fallback
  }

  /** `entries.find(t => t.value === value)?.icon`. */
  function FindIcon(entries: seq<(string, string)>, value: string): Option<string> {
    if entries == [] then None
    else if entries[0].0 == value then Some(entries[0].1)
    else FindIcon(entries[1..], value)
  }

  /** `getActivityIcon`: the icon of the first matching entry, unless missing or empty. */
  function ActivityIcon(value: string): string {
    var found := FindIcon(ActivityTypes, value);
    if found.Some? && found.value != "" then found.value else Fallback
  }

  /** The filter callback of `filteredActivities`. */
  function Shown(selected: string): Sports.Activity -> bool {
    (a: Sports.Activity) => selected == "all" || TypeName(a.kind) == selected
  }

  /** The sort callback: the latest date first. */
  function CompareActivities(a: Sports.Activity, b: Sports.Activity): int {
    b.date - a.date
  }

  function ActivityOrder(): (Sports.Activity, Sports.Activity) -> int {
    (a, b) => CompareActivities(a, b)
  }

  /** `filteredActivities`. */
  function FilteredActivities(activities: seq<Sports.Activity>, selected: string): seq<Sports.Activity> {
    Seqs.SortBy(Seqs.Filter(activities, Shown(selected)), ActivityOrder())
  }

  /** `a.calories || 0`. */
  function CaloriesOf(a: Sports.Activity): real {
    a.calories.GetOr(0.0)
  }

  /** `a.distance || 0`. */
  function DistanceOf(a: Sports.Activity): real {
    a.distance.GetOr(0.0)
  }

  /** The three stat cards. */
  datatype Totals = Totals(duration: real, calories: real, distance: real)

  /** The totals of a list of activities, a missing value counting as 0. */
  function TotalsOf(activities: seq<Sports.Activity>): Totals {
    Totals(Seqs.Sum(activities, DashboardPage.Duration), Seqs.Sum(activities, CaloriesOf),
           Seqs.Sum(activities, DistanceOf))
  }

  /**
   * `totalDuration`, `totalCalories` and `totalDistance` over `thisWeek`,
   * the same window as the dashboard's.
   */
  function WeekTotals(activities: seq<Sports.Activity>, now: int): Totals {
    TotalsOf(DashboardPage.ThisWeekActivities(activities, now))
  }

  /** The test of one chart day: the activity falls on calendar day `day`. */
  function OnDay(dayOf: int -> int, day: int): Sports.Activity -> bool {
    (a: Sports.Activity) => dayOf(a.date) == day
  }

  /** One point of the chart: the day and the minutes and calories logged on it. */
  datatype DayPoint = DayPoint(day: int, duration: real, calories: real)

  /** The day shown in slot `i` of the chart: `6 - i` days before now. */
  function ChartDay(now: int, dayOf: int -> int, i: int): int {
    dayOf(now - (6 - i) * DashboardPage.DayMs)
  }

  function ChartPoint(activities: seq<Sports.Activity>, day: int, dayOf: int -> int): DayPoint {
    var onDay := Seqs.Filter(activities, OnDay(dayOf, day));
    DayPoint(day, Seqs.Sum(onDay, DashboardPage.Duration), Seqs.Sum(onDay, CaloriesOf))
  }

  /**
   * `chartData`: seven points, the oldest day first and today last.
   * `dayOf` stands for `toDateString`, the calendar day of a time.
   */
  function ChartData(activities: seq<Sports.Activity>, now: int, dayOf: int -> int): seq<DayPoint> {
    seq(7, i requires 0 <= i < 7 => ChartPoint(activities, ChartDay(now, dayOf, i), dayOf))
  }

  /**
   * `handleAddActivity`: nothing for a blank name or an empty duration;
   * otherwise an activity dated now, with an empty distance, calories or
   * notes field left absent.
   */
  function ActivityFromForm(kind: Sports.ActivityType, name: string, duration: string, distance: string,
                            calories: string, notes: string,
                            parseInt: string -> int, parseFloat: string -> real, now: int): Option<Sports.ActivityDraft>
  {
    if Text.IsBlank(name) || duration == "" then None
    else
      var dist := if distance == "" then None else Some(parseFloat(distance));
      var cal := if calories == "" then None else Some(parseInt(calories) as real);
      Some(Sports.ActivityDraft(kind, name, parseInt(duration) as real, dist, cal, now, Text.OrNone(notes)))
  }

  /** Looking a value up in a table finds the first entry with that value, and nothing when none has it. */
  lemma {:induction false} FindIconFirst(entries: seq<(string, string)>, value: string, k: nat)
    requires k < |entries| && entries[k].0 == value
    requires forall j :: 0 <= j < k ==> entries[j].0 != value
    ensures FindIcon(entries, value) == Some(entries[k].1)
  {
    if k > 0 {
      FindIconFirst(entries[1..], value, k - 1);
    }
  }

  lemma {:induction false} FindIconMissing(entries: seq<(string, string)>, value: string)
    requires forall j :: 0 <= j < |entries| ==> entries[j].0 != value
    ensures FindIcon(entries, value) == None
  {
    if entries != [] {
      FindIconMissing(entries[1..], value);
    }
  }

  /** The value of each type picks that type's icon. */
  lemma IconOfKnownType(t: Sports.ActivityType)
    ensures ActivityIcon(TypeName(t)) == IconOf(t)
  {
    var k := match t
      case Running => 0 case Cycling => 1 case Swimming => 2 case Gym => 3
      case Yoga => 4 case Hiking => 5 case OtherSport => 6;
    assert ActivityTypes[k] == (TypeName(t), IconOf(t));
    forall j | 0 <= j < k ensures ActivityTypes[j].0 != TypeName(t) {
      assert ActivityTypes[j].0 == TypeName(match j
        case 0 => Sports.Running case 1 => Sports.Cycling case 2 => Sports.Swimming
        case 3 => Sports.Gym case 4 => Sports.Yoga case _ => Sports.Hiking);
    }
    FindIconFirst(ActivityTypes, TypeName(t), k);
  }

  /** Any other value falls back to the lightning icon, the same icon as "other". */
  lemma UnknownTypeIcon(value: string)
    requires forall t :: TypeName(t) != value
    ensures ActivityIcon(value) == Fallback == IconOf(Sports.OtherSport)
  {
    forall j | 0 <= j < |ActivityTypes| ensures ActivityTypes[j].0 != value {
      assert ActivityTypes[j].0 == TypeName(match j
        case 0 => Sports.Running case 1 => Sports.Cycling case 2 => Sports.Swimming
        case 3 => Sports.Gym case 4 => Sports.Yoga case 5 => Sports.Hiking case _ => Sports.OtherSport);
    }
    FindIconMissing(ActivityTypes, value);
  }

  /** The activity comparator is a consistent order. */
  lemma ActivityOrderConsistent()
    ensures Seqs.Consistent(ActivityOrder())
  {
  }

  /**
   * An activity is listed exactly when it is in the store and of the selected
   * type, every activity being listed when "all" is selected.
   */
  lemma FilteredActivitiesMembers(activities: seq<Sports.Activity>, selected: string, a: Sports.Activity)
    ensures a in FilteredActivities(activities, selected) <==>
      a in activities && (selected == "all" || TypeName(a.kind) == selected)
  {
    Seqs.SortByMembers(Seqs.Filter(activities, Shown(selected)), ActivityOrder(), a);
    if a in activities && Shown(selected)(a) {
      Seqs.FilterKeeps(activities, Shown(selected), a);
    }
  }

  /** With "all" selected the list is the whole store, each activity as often as it is stored. */
  lemma AllTypesListsEverything(activities: seq<Sports.Activity>)
    ensures multiset(FilteredActivities(activities, "all")) == multiset(activities)
  {
    Seqs.FilterAllKept(activities, Shown("all"));
  }

  /** The list runs from the latest date to the earliest. */
  lemma FilteredActivitiesNewestFirst(activities: seq<Sports.Activity>, selected: string)
    ensures var r := FilteredActivities(activities, selected);
      forall i, j :: 0 <= i < j < |r| ==> r[i].date >= r[j].date
  {
    ActivityOrderConsistent();
    Seqs.SortBySorted(Seqs.Filter(activities, Shown(selected)), ActivityOrder());
    var r := FilteredActivities(activities, selected);
    forall i, j | 0 <= i < j < |r| ensures r[i].date >= r[j].date {
      assert ActivityOrder()(r[i], r[j]) <= 0;
    }
  }

  /**
   * Logging one more activity adds its duration to the totals, and its
   * calories and distance when it has them; a missing value adds nothing.
   */
  lemma TotalsOfAppend(activities: seq<Sports.Activity>, a: Sports.Activity)
    ensures var before, after := TotalsOf(activities), TotalsOf(activities + [a]);
      && after.duration == before.duration + a.duration
      && (a.calories.None? ==> after.calories == before.calories)
      && (a.calories.Some? ==> after.calories == before.calories + a.calories.value)
      && (a.distance.None? ==> after.distance == before.distance)
      && (a.distance.Some? ==> after.distance == before.distance + a.distance.value)
  {
    assert [a][1..] == [];
    Seqs.SumConcat(activities, [a], DashboardPage.Duration);
    Seqs.SumConcat(activities, [a], CaloriesOf);
    Seqs.SumConcat(activities, [a], DistanceOf);
  }

  /**
   * The week's totals take in an activity dated on or after a week ago,
   * however far in the future, and ignore an older one.
   */
  lemma WeekTotalsWindow(activities: seq<Sports.Activity>, a: Sports.Activity, now: int)
    ensures a.date >= now - 7 * 86400000 ==>
      WeekTotals(activities + [a], now) == TotalsOf(DashboardPage.ThisWeekActivities(activities, now) + [a])
    ensures a.date < now - 7 * 86400000 ==> WeekTotals(activities + [a], now) == WeekTotals(activities, now)
  {
    Seqs.FilterConcat(activities, [a], DashboardPage.InThisWeek(now));
    assert [a][1..] == [];
    if a.date < now - 7 * 86400000 {
      assert Seqs.Filter([a], DashboardPage.InThisWeek(now)) == [];
      assert DashboardPage.ThisWeekActivities(activities, now) + [] == DashboardPage.ThisWeekActivities(activities, now);
    } else {
      assert Seqs.Filter([a], DashboardPage.InThisWeek(now)) == [a];
    }
  }

  /** With non-negative values, the totals are not negative. */
  lemma TotalsNonNegative(activities: seq<Sports.Activity>)
    requires forall a :: a in activities ==> a.duration >= 0.0
    requires forall a :: a in activities && a.calories.Some? ==> a.calories.value >= 0.0
    requires forall a :: a in activities && a.distance.Some? ==> a.distance.value >= 0.0
    ensures var t := TotalsOf(activities); t.duration >= 0.0 && t.calories >= 0.0 && t.distance >= 0.0
  {
    Seqs.SumNonNegative(activities, DashboardPage.Duration);
    Seqs.SumNonNegative(activities, CaloriesOf);
    Seqs.SumNonNegative(activities, DistanceOf);
  }

  /**
   * The chart has seven points, one per day from six days ago to today, and
   * an activity is counted in a point exactly when it falls on that point's day.
   */
  lemma ChartDataShape(activities: seq<Sports.Activity>, now: int, dayOf: int -> int)
    ensures var r := ChartData(activities, now, dayOf);
      && |r| == 7
      && r[6].day == dayOf(now)
      && r[0].day == dayOf(now - 6 * 86400000)
      && forall i :: 0 <= i < 7 ==> r[i].day == dayOf(now - (6 - i) * 86400000)
  {
  }

  lemma ChartPointMembers(activities: seq<Sports.Activity>, now: int, dayOf: int -> int, i: int, a: Sports.Activity)
    requires 0 <= i < 7
    ensures var day := ChartData(activities, now, dayOf)[i].day;
      a in Seqs.Filter(activities, OnDay(dayOf, day)) <==> a in activities && dayOf(a.date) == day
  {
    var day := ChartDay(now, dayOf, i);
    if a in activities && dayOf(a.date) == day {
      Seqs.FilterKeeps(activities, OnDay(dayOf, day), a);
    }
  }

  /**
   * Logging an activity raises the point of its day by its minutes and
   * calories, and leaves every other point as it was.
   */
  lemma ChartDataAppend(activities: seq<Sports.Activity>, a: Sports.Activity, now: int, dayOf: int -> int, i: int)
    requires 0 <= i < 7
    ensures var before, after := ChartData(activities, now, dayOf)[i], ChartData(activities + [a], now, dayOf)[i];
      && after.day == before.day
      && (dayOf(a.date) == before.day ==>
            after.duration == before.duration + a.duration && after.calories == before.calories + CaloriesOf(a))
      && (dayOf(a.date) != before.day ==> after == before)
  {
    var day := ChartDay(now, dayOf, i);
    var onDay := OnDay(dayOf, day);
    Seqs.FilterConcat(activities, [a], onDay);
    var earlier := Seqs.Filter(activities, onDay);
    assert [a][1..] == [];
    if dayOf(a.date) == day {
      assert Seqs.Filter([a], onDay) == [a];
      Seqs.SumConcat(earlier, [a], DashboardPage.Duration);
      Seqs.SumConcat(earlier, [a], CaloriesOf);
    } else {
      assert Seqs.Filter([a], onDay) == [];
      assert earlier + [] == earlier;
    }
  }

  /**
   * The add form: nothing for a blank name or an empty duration; otherwise a
   * draft dated now with the name as typed, and distance, calories and notes
   * absent exactly when their fields are empty.
   */
  lemma ActivityFromFormShape(kind: Sports.ActivityType, name: string, duration: string, distance: string,
                              calories: string, notes: string,
                              parseInt: string -> int, parseFloat: string -> real, now: int)
    ensures var r := ActivityFromForm(kind, name, duration, distance, calories, notes, parseInt, parseFloat, now);
      && (r.None? <==> Text.IsBlank(name) || duration == "")
      && (r.Some? ==>
            && r.value.kind == kind && r.value.name == name && r.value.date == now
            && r.value.duration == parseInt(duration) as real
            && (r.value.distance.None? <==> distance == "")
            && (distance != "" ==> r.value.distance == Some(parseFloat(distance)))
            && (r.value.calories.None? <==> calories == "")
            && (calories != "" ==> r.value.calories == Some(parseInt(calories) as real))
            && (r.value.notes.None? <==> notes == "")
            && (notes != "" ==> r.value.notes == Some(notes)))
  {
  }
}
