/** The values the dashboard (src/screens/DashboardScreen.tsx) derives from
    the store: the rank letter, today's progress per exercise type, the daily
    quests and how many are complete, the level bar, and which of the loading,
    error and main views it shows. */
module DashboardScreen {
  import opened Common
  import opened UserSlice
  import opened ExerciseSlice
  import Store

  // ------------------------------------------------------------------ rank

  /** `getRankLetter`: S for tier 4 and above, then A, B, C for 3, 2, 1, and D below. */
  function RankLetter(tier: int): (letter: string)
    ensures letter == ["DCBAS"[Min(Max(tier, 0), 4)]]
    ensures letter == "S" <==> tier >= 4
    ensures letter == "D" <==> tier <= 0
  {
    if tier >= 4 then "S"
    else if tier == 3 then "A"
    else if tier == 2 then "B"
    else if tier == 1 then "C"
    else "D"
  }

  /** The position of a letter on the scale D < C < B < A < S. */
  function RankIndex(letter: string): int {
    if letter == "S" then 4
    else if letter == "A" then 3
    else if letter == "B" then 2
    else if letter == "C" then 1
    else 0
  }

  /** A higher tier never shows a lower rank, and every tier step up to 4 shows a new one. */
  lemma RankMonotone(t1: int, t2: int)
    requires t1 <= t2
    ensures RankIndex(RankLetter(t1)) <= RankIndex(RankLetter(t2))
    ensures 0 <= t1 < t2 <= 4 ==> RankLetter(t1) != RankLetter(t2)
  {
  }

  // -------------------------------------------------------------- progress

  /** The sum of the counts of records of type t, other types counting nothing. */
  function SumCounts(xs: seq<Exercise>, t: ExerciseType): (r: real)
    ensures (forall i :: 0 <= i < |xs| ==> xs[i].kind != t) ==> r == 0.0
    decreases |xs|
  {
    if xs == [] then 0.0
    else (if xs[0].kind == t then xs[0].count else 0.0) + SumCounts(xs[1..], t)
  }

  lemma {:induction false} SumCountsAppend(xs: seq<Exercise>, ys: seq<Exercise>, t: ExerciseType)
    ensures SumCounts(xs + ys, t) == SumCounts(xs, t) + SumCounts(ys, t)
    decreases |xs|
  {
    if xs == [] {
      assert xs + ys == ys;
    } else {
      assert (xs + ys)[1..] == xs[1..] + ys;
      SumCountsAppend(xs[1..], ys, t);
    }
  }

  /** With no negative counts, every sum is non-negative. */
  lemma {:induction false} SumCountsNonNegative(xs: seq<Exercise>, t: ExerciseType)
    requires forall i :: 0 <= i < |xs| ==> xs[i].count >= 0.0
    ensures SumCounts(xs, t) >= 0.0
    decreases |xs|
  {
    if xs != [] {
      SumCountsNonNegative(xs[1..], t);
    }
  }

  /** `dailyProgress`: today's totals per type (reps, or km for runs). */
  datatype Progress = Progress(pushups: real, situps: real, squats: real, running: real)

  function ProgressOf(p: Progress, t: ExerciseType): real {
    match t
    case Pushup => p.pushups
    case Situp => p.situps
    case Squat => p.squats
    case Run => p.running
  }

  function DailyProgress(today: seq<Exercise>): (p: Progress)
    ensures forall t :: ProgressOf(p, t) == SumCounts(today, t)
  {
    Progress(SumCounts(today, Pushup), SumCounts(today, Situp), SumCounts(today, Squat), SumCounts(today, Run))
  }

  /** Saving a workout not yet in today's list adds its count to its own type's
      progress and leaves the other types as they were; saving one already
      listed changes nothing. */
  lemma SavedWorkoutProgress(s: ExerciseState, e: Exercise, t: ExerciseType)
    ensures var after := DailyProgress(AddExerciseFulfilled(s, e).todayExercises);
            var before := DailyProgress(s.todayExercises);
            ProgressOf(after, t) == ProgressOf(before, t) + (if !HasId(s.todayExercises, e.id) && e.kind == t then e.count else 0.0)
  {
    if !HasId(s.todayExercises, e.id) {
      SumCountsAppend(s.todayExercises, [e], t);
      assert [e][1..] == [];
    }
  }

  // ---------------------------------------------------------------- quests

  /** One quest: the goal for a type and today's progress towards it. */
  datatype Quest = Quest(kind: ExerciseType, goal: real, current: real)

  /** The quest's label ("Run" is measured in km). */
  function QuestName(t: ExerciseType): string {
    match t
    case Pushup => "Pushups"
    case Situp => "Situps"
    case Squat => "Squats"
    case Run => "Run"
  }

  function GoalOf(g: DailyGoals, t: ExerciseType): real {
    match t
    case Pushup => g.pushups
    case Situp => g.situps
    case Squat => g.squats
    case Run => g.runDistance
  }

  /** The fixed order of the quest list. */
  function QuestOrder(t: ExerciseType): int {
    match t
    case Pushup => 0
    case Situp => 1
    case Squat => 2
    case Run => 3
  }

  predicate HasQuest(qs: seq<Quest>, t: ExerciseType) {
    exists i :: 0 <= i < |qs| && qs[i].kind == t
  }

  /** The quest for type t when its goal is positive. */
  function QuestIf(g: DailyGoals, p: Progress, t: ExerciseType): (qs: seq<Quest>)
    ensures qs != [] <==> GoalOf(g, t) > 0.0
  {
    if GoalOf(g, t) > 0.0 then [Quest(t, GoalOf(g, t), ProgressOf(p, t))] else []
  }

  /** The type at a position of the fixed quest order. */
  function KindAt(k: int): (t: ExerciseType)
    ensures 0 <= k <= 3 ==> QuestOrder(t) == k
  {
    if k == 0 then Pushup else if k == 1 then Situp else if k == 2 then Squat else Run
  }

  /** The quests from position k of the fixed order on. */
  function QuestsFrom(g: DailyGoals, p: Progress, k: nat): seq<Quest>
    decreases 4 - k
  {
    if k >= 4 then [] else QuestIf(g, p, KindAt(k)) + QuestsFrom(g, p, k + 1)
  }

  /** `quests`: the array of the four candidate quests with the null entries
      (goal not positive) filtered out. Each quest has its type's positive goal
      and today's progress, and no type has two quests. */
  function Quests(g: DailyGoals, p: Progress): (qs: seq<Quest>)
    ensures forall i :: 0 <= i < |qs| ==>
              qs[i].goal == GoalOf(g, qs[i].kind) > 0.0 && qs[i].current == ProgressOf(p, qs[i].kind)
    ensures DistinctKinds(qs)
  {
    QuestsFromDistinct(g, p, 0);
    QuestsFrom(g, p, 0)
  }

  /** No two quests share a type. */
  predicate DistinctKinds(qs: seq<Quest>) {
    forall i, j :: 0 <= i < j < |qs| ==> qs[i].kind != qs[j].kind
  }

  /** The quests from position k on have their goals and progress, and no
      two share a type. */
  lemma QuestsFromDistinct(g: DailyGoals, p: Progress, k: nat)
    requires k <= 4
    ensures var qs := QuestsFrom(g, p, k);
            (forall i :: 0 <= i < |qs| ==>
               qs[i].goal == GoalOf(g, qs[i].kind) > 0.0 && qs[i].current == ProgressOf(p, qs[i].kind))
            && DistinctKinds(qs)
  {
    QuestsFromOrdered(g, p, k);
  }

  lemma HasQuestCons(q: Quest, rest: seq<Quest>, t: ExerciseType)
    ensures HasQuest([q] + rest, t) <==> q.kind == t || HasQuest(rest, t)
  {
    var qs := [q] + rest;
    if q.kind == t {
      assert qs[0] == q;
    }
    if HasQuest(rest, t) {
      var i :| 0 <= i < |rest| && rest[i].kind == t;
      assert qs[i + 1] == rest[i];
    }
    if HasQuest(qs, t) && q.kind != t {
      var i :| 0 <= i < |qs| && qs[i].kind == t;
      assert rest[i - 1] == qs[i];
    }
  }

  /** The quests from position k each have a positive goal and today's
      progress for their type, a type at k or later, and follow the fixed order. */
  lemma {:induction false} QuestsFromOrdered(g: DailyGoals, p: Progress, k: nat)
    requires k <= 4
    ensures var qs := QuestsFrom(g, p, k);
            (forall i :: 0 <= i < |qs| ==> qs[i].goal == GoalOf(g, qs[i].kind) > 0.0
                                           && qs[i].current == ProgressOf(p, qs[i].kind) && QuestOrder(qs[i].kind) >= k)
            && (forall i, j :: 0 <= i < j < |qs| ==> QuestOrder(qs[i].kind) < QuestOrder(qs[j].kind))
    decreases 4 - k
  {
    if k < 4 {
      QuestsFromOrdered(g, p, k + 1);
      var rest := QuestsFrom(g, p, k + 1);
      var head := QuestIf(g, p, KindAt(k));
      if head != [] {
        var qs := head + rest;
        assert forall i :: 1 <= i < |qs| ==> qs[i] == rest[i - 1];
      }
    }
  }

  /** Every type at position k or later with a positive goal has a quest, and no other. */
  lemma {:induction false} QuestsFromComplete(g: DailyGoals, p: Progress, k: nat, t: ExerciseType)
    requires k <= 4
    ensures HasQuest(QuestsFrom(g, p, k), t) <==> GoalOf(g, t) > 0.0 && QuestOrder(t) >= k
    decreases 4 - k
  {
    if k < 4 {
      QuestsFromComplete(g, p, k + 1, t);
      var rest := QuestsFrom(g, p, k + 1);
      var head := QuestIf(g, p, KindAt(k));
      if head != [] {
        HasQuestCons(head[0], rest, t);
      } else {
        assert QuestsFrom(g, p, k) == rest;
      }
    } else {
      assert QuestsFrom(g, p, k) == [];
    }
  }

  /** One quest per type whose goal is positive, in the order push-ups,
      sit-ups, squats, run, each with its goal and today's progress. */
  lemma QuestsSpec(g: DailyGoals, p: Progress)
    ensures var qs := Quests(g, p);
            (forall i :: 0 <= i < |qs| ==> qs[i].goal == GoalOf(g, qs[i].kind) > 0.0 && qs[i].current == ProgressOf(p, qs[i].kind))
            && (forall i, j :: 0 <= i < j < |qs| ==> QuestOrder(qs[i].kind) < QuestOrder(qs[j].kind))
            && (forall t :: HasQuest(qs, t) <==> GoalOf(g, t) > 0.0)
  {
    QuestsFromOrdered(g, p, 0);
    forall t
      ensures HasQuest(Quests(g, p), t) <==> GoalOf(g, t) > 0.0
    {
      QuestsFromComplete(g, p, 0, t);
    }
  }

  predicate Complete(q: Quest) {
    q.current >= q.goal
  }

  /** `completedQuests`: how many quests have reached their goal. */
  function CompletedQuests(qs: seq<Quest>): (n: int)
    ensures 0 <= n <= |qs|
    ensures n == |qs| <==> forall i :: 0 <= i < |qs| ==> Complete(qs[i])
    ensures n == 0 <==> forall i :: 0 <= i < |qs| ==> !Complete(qs[i])
    decreases |qs|
  {
    if qs == [] then 0
    else
      var rest := CompletedQuests(qs[1..]);
      assert forall i :: 1 <= i < |qs| ==> qs[i] == qs[1..][i - 1];
      (if Complete(qs[0]) then 1 else 0) + rest
  }

  /** Counting the complete quests of a + b counts those of a, then those of b. */
  lemma {:induction false} CompletedQuestsAppend(a: seq<Quest>, b: seq<Quest>)
    ensures CompletedQuests(a + b) == CompletedQuests(a) + CompletedQuests(b)
    decreases |a|
  {
    if a == [] {
      assert a + b == b;
    } else {
      assert (a + b)[1..] == a[1..] + b;
      CompletedQuestsAppend(a[1..], b);
    }
  }

  /** One quest counts 1 exactly when it is complete; with CompletedQuestsAppend
      this fixes the count as the number of complete quests in any list. */
  lemma CompletedQuestsOne(q: Quest)
    ensures CompletedQuests([q]) == if Complete(q) then 1 else 0
  {
    assert [q][1..] == [];
  }

  /** A day with no workouts has no quest complete. */
  lemma NothingDoneNothingComplete(g: DailyGoals)
    ensures CompletedQuests(Quests(g, DailyProgress([]))) == 0
  {
    var qs := Quests(g, DailyProgress([]));
    QuestsSpec(g, DailyProgress([]));
    assert forall i :: 0 <= i < |qs| ==> qs[i].current == 0.0;
  }

  // ------------------------------------------------------------- level bar

  /** `levelProgressPercent`: experience as a rounded percentage of what the
      next level needs, capped at 100, and 0 when that need is not positive. */
  function LevelProgressPercent(experience: int, expForNextLevel: int): (pct: int)
    ensures pct <= 100
    ensures expForNextLevel <= 0 ==> pct == 0
    ensures expForNextLevel > 0 && experience >= 0 ==> pct >= 0
    ensures expForNextLevel > 0 && experience >= expForNextLevel ==> pct == 100
  {
    if expForNextLevel > 0 then
      RoundedPercentBounds(experience, expForNextLevel);
      Min(100, RoundDiv(experience * 100, expForNextLevel))
    else 0
  }

  /** The rounded percentage is not negative for non-negative experience and
      reaches 100 once the experience covers the next level. */
  lemma RoundedPercentBounds(experience: int, next: int)
    requires next > 0
    ensures experience >= 0 ==> RoundDiv(experience * 100, next) >= 0
    ensures experience >= next ==> RoundDiv(experience * 100, next) >= 100
  {
    if experience >= 0 {
      RoundDivNonNegative(experience * 100, next);
    }
    if experience >= next {
      MulMonotone(100, next, experience);
      RoundDivMonotone(100 * next, 100 * experience, next);
      RoundDivExact(100, next);
    }
  }

  /** More experience never shows a shorter bar. */
  lemma LevelProgressMonotone(e1: int, e2: int, next: int)
    requires e1 <= e2
    ensures LevelProgressPercent(e1, next) <= LevelProgressPercent(e2, next)
  {
    if next > 0 {
      MulMonotone(100, e1, e2);
      RoundDivMonotone(e1 * 100, e2 * 100, next);
    }
  }

  // ------------------------------------------------------------ the views

  /** `[a, b].filter(Boolean)`: the messages that are present and non-empty. */
  function PresentMessages(xs: seq<Option<string>>): (r: seq<string>)
    ensures |r| <= |xs|
    ensures forall i :: 0 <= i < |r| ==> r[i] != ""
    ensures r == [] <==> forall i :: 0 <= i < |xs| ==> xs[i].None? || xs[i].value == ""
    decreases |xs|
  {
    if xs == [] then []
    else
      var rest := PresentMessages(xs[1..]);
      assert forall i :: 1 <= i < |xs| ==> xs[i] == xs[1..][i - 1];
      if xs[0].Some? && xs[0].value != "" then [xs[0].value] + rest else rest
  }

  /** `join(sep)`. */
  function Join(ss: seq<string>, sep: string): (r: string)
    ensures ss != [] && ss[0] != "" ==> r != ""
    ensures ss == [] ==> r == ""
    ensures |ss| == 1 ==> r == ss[0]
    decreases |ss|
  {
    if ss == [] then ""
    else if |ss| == 1 then ss[0]
    else ss[0] + sep + Join(ss[1..], sep)
  }

  /** `errorMsg`: the user and exercise errors that are set, joined by "; ". */
  function ErrorMessage(userError: Option<string>, exerciseError: Option<string>): (m: string)
    ensures m == "" <==> (userError.None? || userError.value == "") && (exerciseError.None? || exerciseError.value == "")
    ensures exerciseError.None? && userError.Some? ==> m == userError.value
    ensures userError.None? && exerciseError.Some? ==> m == exerciseError.value
    ensures userError.Some? && userError.value != "" && exerciseError.Some? && exerciseError.value != "" ==>
              m == userError.value + "; " + exerciseError.value
  {
    var present := PresentMessages([userError, exerciseError]);
    assert [userError, exerciseError][1..] == [exerciseError] && [exerciseError][1..] == [];
    var tail := PresentMessages([exerciseError]);
    assert tail == if exerciseError.Some? && exerciseError.value != "" then [exerciseError.value] else [];
    assert present == (if userError.Some? && userError.value != "" then [userError.value] else []) + tail;
    assert |present| == 2 ==> present[1..] == [exerciseError.value];
    Join(present, "; ")
  }

  /** `isLoading`: the spinner shows whenever the user is loading, and never
      once a user is present and neither slice is loading. */
  predicate IsLoading(st: Store.AppState)
    ensures st.user.status == Loading ==> IsLoading(st)
    ensures st.user.id != "" && st.user.status != Loading && st.exercise.status != Loading ==> !IsLoading(st)
  {
    (st.user.status == Loading || (st.user.status == Idle && st.user.id == ""))
    || (st.exercise.status == Loading && |st.exercise.todayExercises| == 0 && st.user.id != "")
  }

  /** `isError`. */
  predicate IsError(st: Store.AppState) {
    st.user.status == Failed || st.exercise.status == Failed
  }

  /** From a state without an error, one action brings the error test on
      exactly when it is `fetchUser`'s rejection or a `setUser` that sets the
      status to 'failed': no other reducer of either slice fails. */
  lemma ErrorOnlyFromRejection(st: Store.AppState, a: Store.Action)
    requires !IsError(st)
    ensures IsError(Store.Apply(st, a)) <==> a.FetchUserRejected? || (a.SetUser? && a.patch.status == Some(Failed))
  {
  }

  /** Which of the dashboard's views is rendered. */
  datatype View = Spinner | ErrorView(message: string) | NotLoaded | Panel

  function ViewOf(st: Store.AppState): (v: View)
    ensures v.Spinner? <==> IsLoading(st)
    ensures v.ErrorView? <==> !IsLoading(st) && IsError(st)
    ensures v.ErrorView? ==> v.message != ""
    ensures v.Panel? ==> st.user.id != "" && st.user.status != Failed && st.exercise.status != Failed
    ensures !IsLoading(st) && !IsError(st) ==> (v.Panel? <==> st.user.id != "")
    ensures v.ErrorView? && ErrorMessage(st.user.error, st.exercise.error) != "" ==>
              v.message == ErrorMessage(st.user.error, st.exercise.error)
    ensures v.ErrorView? && ErrorMessage(st.user.error, st.exercise.error) == "" ==> v.message == "Unknown error"
  {
    if IsLoading(st) then Spinner
    else if IsError(st) then
      var m := ErrorMessage(st.user.error, st.exercise.error);
      ErrorView(if m == "" then "Unknown error" else m)
    else if st.user.id == "" then NotLoaded
    else Panel
  }

  /** After `fetchUser` is rejected the dashboard shows the error view with the
      rejection's message (the exercise slice having no error of its own). */
  lemma RejectedFetchShowsError(st: Store.AppState, message: Option<string>)
    requires st.exercise.error.None?
    ensures var after := Store.Apply(st, Store.FetchUserRejected(message));
            ViewOf(after) == ErrorView(after.user.error.value)
            && (message.Some? && message.value != "" ==> ViewOf(after) == ErrorView(message.value))
  {
  }

  /** The mount effect: which loads it starts. */
  datatype Loads = Loads(fetchUser: bool, fetchTodayExercises: bool)

  function Effects(st: Store.AppState): (l: Loads)
    ensures !(l.fetchUser && l.fetchTodayExercises)
    ensures l.fetchUser ==> IsLoading(st)
  {
    Loads(st.user.status == Idle && st.user.id == "",
          st.exercise.status == Idle && st.user.id != "")
  }

  /** On mount the effect starts `fetchUser`; once that has succeeded with a
      user, the next run of the effect starts `fetchTodayExercises`. */
  lemma MountStartsLoads(p: FetchedUser)
    requires p.id != ""
    ensures Effects(Store.InitialState).fetchUser
    ensures var after := Store.ApplyAll(Store.InitialState, [Store.FetchUserPending, Store.FetchUserFulfilled(p)]);
            Effects(after) == Loads(false, true) && ViewOf(after) == Panel
  {
    Store.ApplyAllPair(Store.InitialState, Store.FetchUserPending, Store.FetchUserFulfilled(p));
  }

  /** Once the effect's `fetchTodayExercises` settles, the exercise slice is no
      longer idle, so the effect does not start it again; with the mock fetch,
      today's list is empty afterwards and the user is untouched. */
  lemma TodayFetchStartsOnce(st: Store.AppState)
    requires Effects(st).fetchTodayExercises
    ensures var after := Store.Apply(st, Store.FetchTodayExercises(st.user.id));
            !Effects(after).fetchTodayExercises && !Effects(after).fetchUser
            && after.exercise.todayExercises == [] && after.user == st.user
  {
  }
}
