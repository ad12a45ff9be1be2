/**
 * The sports store: the sequences `activities` and `goals`. Updates merge
 * without touching any timestamp, and a goal's `current` is whatever was
 * last written to it: logging an activity never moves it.
 */
module Sports {
  import opened Wrappers
  import Collection

  datatype ActivityType = Running | Cycling | Swimming | Gym | Yoga | Hiking | OtherSport

  /** A logged activity: duration in minutes, distance in kilometres. */
  datatype Activity = Activity(
    id: string,
    kind: ActivityType,
    name: string,
    duration: real,
    distance: Option<real>,
    calories: Option<real>,
    date: int,
    notes: Option<string>,
    createdAt: int)

  datatype GoalPeriod = WeeklyGoal | MonthlyGoal

  datatype Metric = Activities | Duration | Distance | Calories

  datatype Goal = Goal(
    id: string,
    period: GoalPeriod,
    target: real,
    current: real,
    metric: Metric,
    startDate: int,
    endDate: int)

  /** `Omit<Activity, 'id' | 'createdAt'>`. */
  datatype ActivityDraft = ActivityDraft(
    kind: ActivityType,
    name: string,
    duration: real,
    distance: Option<real>,
    calories: Option<real>,
    date: int,
    notes: Option<string>)

  /** `Omit<Goal, 'id'>`. */
  datatype GoalDraft = GoalDraft(
    period: GoalPeriod,
    target: real,
    current: real,
    metric: Metric,
    startDate: int,
    endDate: int)

  /** `Partial<Activity>`; `Some(None)` clears an optional property. */
  datatype ActivityPatch = ActivityPatch(
    id: Option<string>,
    kind: Option<ActivityType>,
    name: Option<string>,
    duration: Option<real>,
    distance: Option<Option<real>>,
    calories: Option<Option<real>>,
    date: Option<int>,
    notes: Option<Option<string>>,
    createdAt: Option<int>)

  /** `Partial<Goal>`. */
  datatype GoalPatch = GoalPatch(
    id: Option<string>,
    period: Option<GoalPeriod>,
    target: Option<real>,
    current: Option<real>,
    metric: Option<Metric>,
    startDate: Option<int>,
    endDate: Option<int>)

  function ActivityId(a: Activity): string {
    a.id
  }

  function GoalId(g: Goal): string {
    g.id
  }

  /** `{...draft, id, createdAt: now}`. */
  function CreateActivity(d: ActivityDraft, id: string, now: int): Activity {
    Activity(id, d.kind, d.name, d.duration, d.distance, d.calories, d.date, d.notes, now)
  }

  function DraftOf(a: Activity): ActivityDraft {
    ActivityDraft(a.kind, a.name, a.duration, a.distance, a.calories, a.date, a.notes)
  }

  /** `{...draft, id}`. */
  function CreateGoal(d: GoalDraft, id: string): Goal {
    Goal(id, d.period, d.target, d.current, d.metric, d.startDate, d.endDate)
  }

  /** `{...a, ...p}`: no timestamp is refreshed. */
  function MergeActivity(a: Activity, p: ActivityPatch): Activity {
    Activity(p.id.GetOr(a.id), p.kind.GetOr(a.kind), p.name.GetOr(a.name),
             p.duration.GetOr(a.duration), p.distance.GetOr(a.distance),
             p.calories.GetOr(a.calories), p.date.GetOr(a.date), p.notes.GetOr(a.notes),
             p.createdAt.GetOr(a.createdAt))
  }

  /** `{...g, ...p}`. */
  function MergeGoal(g: Goal, p: GoalPatch): Goal {
    Goal(p.id.GetOr(g.id), p.period.GetOr(g.period), p.target.GetOr(g.target),
         p.current.GetOr(g.current), p.metric.GetOr(g.metric),
         p.startDate.GetOr(g.startDate), p.endDate.GetOr(g.endDate))
  }

  function ActivityMerger(p: ActivityPatch): Activity -> Activity {
    a => MergeActivity(a, p)
  }

  function GoalMerger(p: GoalPatch): Goal -> Goal {
    g => MergeGoal(g, p)
  }

  function ActivityAdded(activities: seq<Activity>, d: ActivityDraft, id: string, now: int): seq<Activity> {
    activities + [CreateActivity(d, id, now)]
  }

  function ActivityUpdated(activities: seq<Activity>, id: string, p: ActivityPatch): seq<Activity> {
    Collection.Replace(activities, ActivityId, id, ActivityMerger(p))
  }

  function ActivityDeleted(activities: seq<Activity>, id: string): seq<Activity> {
    Collection.Remove(activities, ActivityId, id)
  }

  function GoalAdded(goals: seq<Goal>, d: GoalDraft, id: string): seq<Goal> {
    goals + [CreateGoal(d, id)]
  }

  function GoalUpdated(goals: seq<Goal>, id: string, p: GoalPatch): seq<Goal> {
    Collection.Replace(goals, GoalId, id, GoalMerger(p))
  }

  class SportsStore {
    var activities: seq<Activity>
    var goals: seq<Goal>

    constructor (initialActivities: seq<Activity>, initialGoals: seq<Goal>)
      ensures activities == initialActivities && goals == initialGoals
    {
      activities := initialActivities;
      goals := initialGoals;
    }

    method AddActivity(draft: ActivityDraft, freshId: string, now: int)
      requires Collection.IsFresh(activities, ActivityId, freshId)
      modifies this`activities
      ensures activities == ActivityAdded(old(activities), draft, freshId, now)
      ensures goals == old(goals)
    {
      activities := ActivityAdded(activities, draft, freshId, now);
    }

    method UpdateActivity(id: string, updates: ActivityPatch)
      modifies this`activities
      ensures activities == ActivityUpdated(old(activities), id, updates)
      ensures goals == old(goals)
    {
      activities := ActivityUpdated(activities, id, updates);
    }

    method DeleteActivity(id: string)
      modifies this`activities
      ensures activities == ActivityDeleted(old(activities), id)
      ensures goals == old(goals)
    {
      activities := ActivityDeleted(activities, id);
    }

    method AddGoal(draft: GoalDraft, freshId: string)
      requires Collection.IsFresh(goals, GoalId, freshId)
      modifies this`goals
      ensures goals == GoalAdded(old(goals), draft, freshId)
      ensures activities == old(activities)
    {
      goals := GoalAdded(goals, draft, freshId);
    }

    method UpdateGoal(id: string, updates: GoalPatch)
      modifies this`goals
      ensures goals == GoalUpdated(old(goals), id, updates)
      ensures activities == old(activities)
    {
      goals := GoalUpdated(goals, id, updates);
    }
  }

  /**
   * `addActivity` appends one activity carrying the draft, the fresh id and
   * the clock as its creation time; a query by the fresh id finds exactly it.
   */
  lemma AddActivityAppends(activities: seq<Activity>, d: ActivityDraft, id: string, now: int)
    requires Collection.IsFresh(activities, ActivityId, id)
    ensures var r := ActivityAdded(activities, d, id, now);
      && |r| == |activities| + 1
      && r[..|activities|] == activities
      && DraftOf(r[|activities|]) == d
      && r[|activities|].id == id && r[|activities|].createdAt == now
      && Collection.Find(r, ActivityId, id) == [r[|activities|]]
      && (Collection.UniqueIds(activities, ActivityId) ==> Collection.UniqueIds(r, ActivityId))
  {
    Collection.AppendFresh(activities, ActivityId, CreateActivity(d, id, now));
    assert (activities + [CreateActivity(d, id, now)])[..|activities|] == activities;
  }

  /**
   * `updateActivity` merges the patch into the activities with the id and
   * keeps their creation time unless the patch supplies one.
   */
  lemma UpdateActivityEffect(activities: seq<Activity>, id: string, p: ActivityPatch)
    ensures var r := ActivityUpdated(activities, id, p);
      && |r| == |activities|
      && (forall i :: 0 <= i < |activities| && activities[i].id != id ==> r[i] == activities[i])
      && (forall i :: 0 <= i < |activities| && activities[i].id == id ==>
            r[i] == MergeActivity(activities[i], p)
            && (p.createdAt.None? ==> r[i].createdAt == activities[i].createdAt))
      && (Collection.IsFresh(activities, ActivityId, id) ==> r == activities)
  {
    Collection.ReplaceEffect(activities, ActivityId, id, ActivityMerger(p));
  }

  /** `deleteActivity` removes exactly the activities with the id and keeps the rest. */
  lemma DeleteActivityEffect(activities: seq<Activity>, id: string)
    ensures var r := ActivityDeleted(activities, id);
      && Collection.IsFresh(r, ActivityId, id)
      && (forall a :: a in activities && a.id != id ==> a in r)
      && (forall a :: a in r ==> a in activities)
      && |r| + |Collection.Find(activities, ActivityId, id)| == |activities|
  {
    Collection.RemoveEffect(activities, ActivityId, id);
  }

  /**
   * `addGoal` appends the draft under the fresh id, every other field as
   * given: its period, metric, dates, target and current value.
   */
  lemma AddGoalAppends(goals: seq<Goal>, d: GoalDraft, id: string)
    requires Collection.IsFresh(goals, GoalId, id)
    ensures var r := GoalAdded(goals, d, id);
      && |r| == |goals| + 1
      && r[..|goals|] == goals
      && r[|goals|] == CreateGoal(d, id)
      && r[|goals|].id == id && r[|goals|].current == d.current && r[|goals|].target == d.target
      && r[|goals|].period == d.period && r[|goals|].metric == d.metric
      && r[|goals|].startDate == d.startDate && r[|goals|].endDate == d.endDate
      && Collection.Find(r, GoalId, id) == [r[|goals|]]
  {
    Collection.AppendFresh(goals, GoalId, CreateGoal(d, id));
    assert (goals + [CreateGoal(d, id)])[..|goals|] == goals;
  }

  /**
   * `updateGoal` merges the patch into the goals with the id; `current`
   * moves only when the patch supplies it.
   */
  lemma UpdateGoalEffect(goals: seq<Goal>, id: string, p: GoalPatch)
    ensures var r := GoalUpdated(goals, id, p);
      && |r| == |goals|
      && (forall i :: 0 <= i < |goals| && goals[i].id != id ==> r[i] == goals[i])
      && (forall i :: 0 <= i < |goals| && goals[i].id == id ==>
            r[i] == MergeGoal(goals[i], p)
            && (p.current.None? ==> r[i].current == goals[i].current))
      && (Collection.IsFresh(goals, GoalId, id) ==> r == goals)
  {
    Collection.ReplaceEffect(goals, GoalId, id, GoalMerger(p));
  }
}
