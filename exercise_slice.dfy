/** The exercise slice of the Redux store: saved workouts, daily goals, the
    power ledger and the streak (src/features/exercise/exerciseSlice.ts). */
module ExerciseSlice {
  import opened Common
  import Text

  datatype ExerciseType = Pushup | Situp | Squat | Run

  /** Strength types feed `totalPower`; runs convert to energy instead. */
  predicate IsStrength(t: ExerciseType) {
    t == Pushup || t == Situp || t == Squat
  }

  /** A workout as the screen hands it to `addExercise` (`Omit<Exercise, 'id'>`);
      `steps` is the run's `metadata.steps`. Dates are ISO-8601 strings. */
  datatype ExerciseDraft = ExerciseDraft(
    kind: ExerciseType, count: real, date: string, powerGenerated: int,
    formQuality: Option<int>, steps: Option<int>)

  /** A saved exercise record. */
  datatype Exercise = Exercise(
    id: string, kind: ExerciseType, count: real, date: string, powerGenerated: int,
    formQuality: Option<int>, steps: Option<int>, userId: Option<string>)

  /** `{ ...exercise, id, userId }`: the draft with its new id and owner. */
  function Saved(d: ExerciseDraft, id: string, userId: string): (e: Exercise)
    ensures e.id == id && e.userId == Some(userId)
    ensures e.kind == d.kind && e.count == d.count && e.date == d.date
    ensures e.powerGenerated == d.powerGenerated && e.formQuality == d.formQuality && e.steps == d.steps
  {
    Exercise(id, d.kind, d.count, d.date, d.powerGenerated, d.formQuality, d.steps, Some(userId))
  }

  datatype DailyGoals = DailyGoals(pushups: real, situps: real, squats: real, runDistance: real)

  /** A `Partial<dailyGoals>` payload. */
  datatype GoalsPatch = GoalsPatch(pushups: Option<real>, situps: Option<real>,
                                   squats: Option<real>, runDistance: Option<real>)

  /** The exercise slice state (`ExerciseState`). */
  datatype ExerciseState = ExerciseState(
    todayExercises: seq<Exercise>, history: seq<Exercise>, dailyGoals: DailyGoals,
    currentStreak: int, longestStreak: int, lastWorkoutDate: Option<string>,
    totalPower: int, status: Status, error: Option<string>)

  /** `initialState` of the slice. */
  const InitialExercises := ExerciseState([], [], DailyGoals(10.0, 10.0, 10.0, 1.0), 0, 0, None, 0, Idle, None)

  /** The streak invariant: 0 <= currentStreak <= longestStreak. */
  ghost predicate StreakInRange(s: ExerciseState) {
    0 <= s.currentStreak <= s.longestStreak
  }

  /** `updateDailyGoals`: `{ ...dailyGoals, ...payload }`. */
  function UpdateDailyGoals(s: ExerciseState, p: GoalsPatch): (r: ExerciseState)
    ensures p.pushups.Some? ==> r.dailyGoals.pushups == p.pushups.value
    ensures p.pushups.None? ==> r.dailyGoals.pushups == s.dailyGoals.pushups
    ensures p.situps.Some? ==> r.dailyGoals.situps == p.situps.value
    ensures p.situps.None? ==> r.dailyGoals.situps == s.dailyGoals.situps
    ensures p.squats.Some? ==> r.dailyGoals.squats == p.squats.value
    ensures p.squats.None? ==> r.dailyGoals.squats == s.dailyGoals.squats
    ensures p.runDistance.Some? ==> r.dailyGoals.runDistance == p.runDistance.value
    ensures p.runDistance.None? ==> r.dailyGoals.runDistance == s.dailyGoals.runDistance
    ensures r.(dailyGoals := s.dailyGoals) == s
  {
    var g := s.dailyGoals;
    s.(dailyGoals := DailyGoals(p.pushups.GetOr(g.pushups), p.situps.GetOr(g.situps),
                                p.squats.GetOr(g.squats), p.runDistance.GetOr(g.runDistance)))
  }

  /** `resetStreak`: only currentStreak is zeroed. */
  function ResetStreak(s: ExerciseState): (r: ExerciseState)
    ensures r.currentStreak == 0 && r.(currentStreak := s.currentStreak) == s
  {
    s.(currentStreak := 0)
  }

  /** `usePower`: totalPower - n, cut off at 0. */
  function UsePower(s: ExerciseState, n: int): (r: ExerciseState)
    ensures r.totalPower >= 0 && r.totalPower >= s.totalPower - n
    ensures r.totalPower == s.totalPower - n || r.totalPower == 0
    ensures r.(totalPower := s.totalPower) == s
  {
    s.(totalPower := Max(0, s.totalPower - n))
  }

  /** `addExercise.pending` and `fetchTodayExercises.pending` (the same reducer). */
  function LoadPending(s: ExerciseState): (r: ExerciseState)
    ensures r.status == Loading && r.error == None
    ensures r.(status := s.status, error := s.error) == s
  {
    s.(status := Loading, error := None)
  }

  /** Whether some record in xs carries this id (`xs.find(ex => ex.id === id)`). */
  predicate HasId(xs: seq<Exercise>, id: string) {
    exists i :: 0 <= i < |xs| && xs[i].id == id
  }

  /** No two records share an id. */
  ghost predicate DistinctIds(xs: seq<Exercise>) {
    forall i, j :: 0 <= i < j < |xs| ==> xs[i].id != xs[j].id
  }

  /** The calendar key of a record: its ISO date up to 'T' (a UTC date), as
      `split('T')[0]` gives it: a prefix of the date holding no 'T', followed
      in the date by 'T' or by nothing. */
  function DayKey(e: Exercise): (k: string)
    ensures |k| <= |e.date| && e.date[..|k|] == k && 'T' !in k
    ensures |k| < |e.date| ==> e.date[|k|] == 'T'
  {
    Text.DatePart(e.date)
  }

  /** The key the reducer compares with: `lastWorkoutDate ? lastWorkoutDate.split('T')[0] : null`
      (the empty string is falsy and counts as no date). */
  function LastDayKey(last: Option<string>): (k: Option<string>)
    ensures k.Some? <==> last.Some? && last.value != ""
  {
    if last.Some? && last.value != "" then Some(Text.DatePart(last.value)) else None
  }

  /** `addExercise.fulfilled`: record the exercise, accrue power, advance the streak. */
  function AddExerciseFulfilled(s: ExerciseState, e: Exercise): (r: ExerciseState)
    ensures r.history == s.history + [e]
    ensures r.todayExercises == if HasId(s.todayExercises, e.id) then s.todayExercises
                                else s.todayExercises + [e]
    ensures r.totalPower == s.totalPower + (if IsStrength(e.kind) then e.powerGenerated else 0)
    ensures LastDayKey(s.lastWorkoutDate) == Some(DayKey(e)) ==>
              r.currentStreak == s.currentStreak && r.longestStreak == s.longestStreak
              && r.lastWorkoutDate == s.lastWorkoutDate
    ensures LastDayKey(s.lastWorkoutDate) != Some(DayKey(e)) ==>
              r.currentStreak == s.currentStreak + 1 && r.lastWorkoutDate == Some(DayKey(e))
              && r.longestStreak == Max(s.longestStreak, s.currentStreak + 1)
    ensures r.status == Succeeded && r.error == s.error && r.dailyGoals == s.dailyGoals
  {
    var today := if HasId(s.todayExercises, e.id) then s.todayExercises else s.todayExercises + [e];
    var power := if IsStrength(e.kind) then s.totalPower + e.powerGenerated else s.totalPower;
    var key := DayKey(e);
    var s1 := s.(status := Succeeded, todayExercises := today, history := s.history + [e], totalPower := power);
    if LastDayKey(s.lastWorkoutDate) != Some(key) then
      var streak := s.currentStreak + 1;
      s1.(currentStreak := streak, lastWorkoutDate := Some(key),
          longestStreak := if streak > s.longestStreak then streak else s.longestStreak)
    else s1
  }

  /** `addExercise.rejected` and `fetchTodayExercises.rejected` (the same reducer). */
  function LoadRejected(s: ExerciseState, message: Option<string>): (r: ExerciseState)
    ensures r.status == Failed && r.error.Some? && r.error.value != ""
    ensures message.Some? && message.value != "" ==> r.error == message
    ensures r.(status := s.status, error := s.error) == s
  {
    var m := if message.Some? && message.value != "" then message.value else "Failed";
    s.(status := Failed, error := Some(m))
  }

  /** `fetchTodayExercises.fulfilled`: today's list becomes the fetched one. */
  function FetchTodayFulfilled(s: ExerciseState, fetched: seq<Exercise>): (r: ExerciseState)
    ensures r.todayExercises == fetched && r.status == Succeeded
    ensures r.(todayExercises := s.todayExercises, status := s.status) == s
  {
    s.(status := Succeeded, todayExercises := fetched)
  }

  /** The energy the `addExercise` thunk credits for a saved record:
      `Math.round(powerGenerated / 2)` for a run when that is positive, else nothing. */
  function ThunkEnergyCredit(e: Exercise): (credit: Option<int>)
    ensures credit.Some? <==> e.kind == Run && e.powerGenerated > 0
    ensures credit.Some? ==> credit.value > 0 && 2 * credit.value - 1 <= e.powerGenerated <= 2 * credit.value
  {
    if e.kind == Run then
      var gained := RoundDiv(e.powerGenerated, 2);
      if gained > 0 then Some(gained) else None
    else None
  }

  /** Saving a sequence of records one after another. */
  function AddAll(s: ExerciseState, es: seq<Exercise>): ExerciseState
    decreases |es|
  {
    if es == [] then s else AddAll(AddExerciseFulfilled(s, es[0]), es[1..])
  }

  /** Once a day's workout is recorded, more records of that day leave the streak alone. */
  lemma {:induction false} SameDayKeepsStreak(s: ExerciseState, es: seq<Exercise>, day: string)
    requires LastDayKey(s.lastWorkoutDate) == Some(day)
    requires forall i :: 0 <= i < |es| ==> DayKey(es[i]) == day
    ensures AddAll(s, es).currentStreak == s.currentStreak
    ensures AddAll(s, es).longestStreak == s.longestStreak
    ensures LastDayKey(AddAll(s, es).lastWorkoutDate) == Some(day)
    decreases |es|
  {
    if es != [] {
      SameDayKeepsStreak(AddExerciseFulfilled(s, es[0]), es[1..], day);
    }
  }

  /** Any run of records on one calendar day raises currentStreak by at most one. */
  lemma {:induction false} SameDayStreakAtMostOne(s: ExerciseState, es: seq<Exercise>, day: string)
    requires day != ""
    requires forall i :: 0 <= i < |es| ==> DayKey(es[i]) == day
    ensures s.currentStreak <= AddAll(s, es).currentStreak <= s.currentStreak + 1
  {
    if es != [] {
      var s1 := AddExerciseFulfilled(s, es[0]);
      Text.DatePartIdempotent(es[0].date);
      assert LastDayKey(s1.lastWorkoutDate) == Some(day);
      SameDayKeepsStreak(s1, es[1..], day);
    }
  }

  /** Every reducer of the slice keeps 0 <= currentStreak <= longestStreak. */
  lemma StreakInvariantKept(s: ExerciseState, e: Exercise, n: int, p: GoalsPatch, fetched: seq<Exercise>,
                            m: Option<string>)
    requires StreakInRange(s)
    ensures StreakInRange(AddExerciseFulfilled(s, e)) && StreakInRange(ResetStreak(s))
    ensures StreakInRange(UsePower(s, n)) && StreakInRange(UpdateDailyGoals(s, p))
    ensures StreakInRange(LoadPending(s)) && StreakInRange(LoadRejected(s, m))
    ensures StreakInRange(FetchTodayFulfilled(s, fetched))
  {
  }

  /** Saving keeps the ids of today's list distinct. */
  lemma TodayIdsStayDistinct(s: ExerciseState, e: Exercise)
    requires DistinctIds(s.todayExercises)
    ensures DistinctIds(AddExerciseFulfilled(s, e).todayExercises)
    ensures HasId(AddExerciseFulfilled(s, e).todayExercises, e.id)
  {
    var t := AddExerciseFulfilled(s, e).todayExercises;
    if !HasId(s.todayExercises, e.id) {
      assert t[|t| - 1] == e;
    }
  }

  /** Power sums over a sequence of saves: each strength record adds its power, runs add none. */
  function StrengthPower(es: seq<Exercise>): int {
    if es == [] then 0
    else (if IsStrength(es[0].kind) then es[0].powerGenerated else 0) + StrengthPower(es[1..])
  }

  lemma {:induction false} PowerAccrues(s: ExerciseState, es: seq<Exercise>)
    ensures AddAll(s, es).totalPower == s.totalPower + StrengthPower(es)
    decreases |es|
  {
    if es != [] {
      var s1 := AddExerciseFulfilled(s, es[0]);
      assert AddAll(s, es) == AddAll(s1, es[1..]);
      PowerAccrues(s1, es[1..]);
    }
  }

  /** Every saved record is appended to the history, in order. */
  lemma {:induction false} HistoryAccrues(s: ExerciseState, es: seq<Exercise>)
    ensures AddAll(s, es).history == s.history + es
    decreases |es|
  {
    if es != [] {
      var s1 := AddExerciseFulfilled(s, es[0]);
      assert AddAll(s, es) == AddAll(s1, es[1..]);
      HistoryAccrues(s1, es[1..]);
      assert s.history + [es[0]] + es[1..] == s.history + es;
    }
  }
}
