/** The workout screen (src/screens/ExerciseScreen.tsx): choosing an exercise,
    starting and stopping a workout, and pricing the finished workout into the
    actions it dispatches. The run tracker's sensors are not modelled: a run
    ends with the distance (km) and step count it measured, given as inputs. */
module ExerciseScreen {
  import opened Common
  import opened ExerciseSlice
  import opened Store
  import UserSlice

  /** `formatExerciseName`: the label of a type, '' when none is chosen. */
  function FormatExerciseName(t: Option<ExerciseType>): (name: string)
    ensures name == "" <==> t.None?
  {
    match t
    case None => ""
    case Some(Pushup) => "Push-ups"
    case Some(Situp) => "Sit-ups"
    case Some(Squat) => "Squats"
    case Some(Run) => "Run"
  }

  /** Different types get different labels. */
  lemma FormatExerciseNameInjective(a: Option<ExerciseType>, b: Option<ExerciseType>)
    requires FormatExerciseName(a) == FormatExerciseName(b)
    ensures a == b
  {
  }

  // ---------------------------------------------------------------- pricing

  /** What a finished workout earns. */
  datatype Reward = Reward(power: int, energy: int, xp: int)

  /** Power per repetition: 7 for push-ups, 4 for sit-ups, 5 otherwise. */
  function PowerPerRep(t: ExerciseType): int {
    if t == Pushup then 7 else if t == Situp then 4 else 5
  }

  /** The reward of `reps` bodyweight repetitions: `round(reps * rate)` power,
      `round(reps * 0.5)` energy, `round(reps * 2)` XP. */
  function BodyweightReward(t: ExerciseType, reps: int): (r: Reward)
    ensures r.power == reps * PowerPerRep(t)
    ensures r.energy == RoundDiv(reps, 2) && (r.energy * 2 == reps || r.energy * 2 == reps + 1)
    ensures r.xp == 2 * reps
  {
    RoundDivExact(reps * PowerPerRep(t), 1);
    RoundDivExact(reps * 2, 1);
    Reward(RoundDiv(reps * PowerPerRep(t), 1), RoundDiv(reps, 2), RoundDiv(reps * 2, 1))
  }

  /** The reward of a run: `round(distance * 10)` power, half of it (rounded)
      as energy, one XP per step. */
  function RunReward(distance: real, steps: int): (r: Reward)
    ensures r.power as real <= distance * 10.0 + 0.5 < r.power as real + 1.0
    ensures 2 * r.energy - 1 <= r.power <= 2 * r.energy
    ensures r.xp == steps
  {
    var power := RoundReal(distance * 10.0);
    Reward(power, RoundDiv(power, 2), steps)
  }

  /** `parseFloat(distance.toFixed(2))`: the distance to two decimals. */
  function TwoDecimals(distance: real): (r: real)
    ensures r - 0.005 <= distance < r + 0.005
  {
    RoundReal(distance * 100.0) as real / 100.0
  }

  // ---------------------------------------------------------- the session

  /** The run tracker's `status`. */
  datatype RunStatus = Idle | RequestingPermission | Tracking | Error

  /** The screen's state hooks (and the tracker's status). */
  datatype Workout = Workout(selected: Option<ExerciseType>, runStatus: RunStatus,
                             manualRepCount: int, isTrackingBodyweight: bool)

  const InitialWorkout := Workout(None, RunStatus.Idle, 0, false)

  /** Whether a workout of the selected kind is under way. */
  predicate Active(s: Workout) {
    s.runStatus == Tracking || s.isTrackingBodyweight
  }

  /** `handleSelectExercise`: choosing never starts or stops tracking; the
      selection becomes t or stays, and a consistent screen stays consistent. */
  function SelectExercise(s: Workout, t: ExerciseType): (r: Workout)
    ensures r.runStatus == s.runStatus && r.isTrackingBodyweight == s.isTrackingBodyweight
    ensures r.selected == s.selected || r.selected == Some(t)
    ensures Consistent(s) ==> Consistent(r)
  {
    if (s.runStatus == Tracking && t != Run) || (s.isTrackingBodyweight && t == Run) then s
    else
      var s1 := if t != Run && s.runStatus == Tracking then s.(runStatus := RunStatus.Idle) else s;
      var s2 := if t == Run && s1.isTrackingBodyweight then s1.(isTrackingBodyweight := false, manualRepCount := 0) else s1;
      var s3 := s2.(selected := Some(t));
      if t != Run && !s3.isTrackingBodyweight then s3.(manualRepCount := 0) else s3
  }

  /** Switching between a run and a bodyweight exercise is refused while either
      is being tracked; otherwise the type is selected, and the rep count is
      cleared unless a bodyweight workout is under way. */
  lemma SelectExerciseEffect(s: Workout, t: ExerciseType)
    ensures var r := SelectExercise(s, t);
            ((s.runStatus == Tracking && t != Run) || (s.isTrackingBodyweight && t == Run)) ==> r == s
    ensures var r := SelectExercise(s, t);
            !((s.runStatus == Tracking && t != Run) || (s.isTrackingBodyweight && t == Run)) ==>
              r.selected == Some(t) && r.runStatus == s.runStatus && r.isTrackingBodyweight == s.isTrackingBodyweight
              && r.manualRepCount == (if t != Run && !s.isTrackingBodyweight then 0 else s.manualRepCount)
  {
  }

  /** Switching between bodyweight types in the middle of a workout keeps the
      repetitions counted so far, which are then saved under the new type. */
  lemma SwitchKeepsReps(s: Workout, t: ExerciseType)
    requires s.isTrackingBodyweight && t != Run && s.runStatus != Tracking
    ensures SelectExercise(s, t) == s.(selected := Some(t))
  {
  }

  /** The screen's reachable states: a run is tracked only with "run" selected,
      bodyweight reps only with a bodyweight type selected. */
  predicate Consistent(s: Workout) {
    (s.runStatus == Tracking ==> s.selected == Some(Run))
    && (s.isTrackingBodyweight ==> s.selected.Some? && s.selected.value != Run)
  }

  /** The start screen is consistent, and every handler keeps it so. */
  lemma ConsistentKept(s: Workout, t: ExerciseType, userId: string, i: Inputs)
    requires Consistent(s)
    ensures Consistent(InitialWorkout)
    ensures Consistent(SelectExercise(s, t))
    ensures Consistent(StartStop(s, userId, i).0)
    ensures Consistent(RecordRep(s))
  {
  }

  /** The "Record Rep" button: one more repetition. */
  function RecordRep(s: Workout): (r: Workout)
    ensures r.manualRepCount == s.manualRepCount + 1
    ensures r.(manualRepCount := s.manualRepCount) == s
  {
    s.(manualRepCount := s.manualRepCount + 1)
  }

  /** "Record Rep" is enabled only while a bodyweight workout is tracked, so
      on a consistent screen only with a bodyweight type selected. */
  predicate CanRecordRep(s: Workout)
    ensures CanRecordRep(s) ==> Active(s)
    ensures CanRecordRep(s) && Consistent(s) ==> s.selected.Some? && s.selected.value != Run
  {
    s.isTrackingBodyweight
  }

  /** A rep recorded through the enabled button keeps the button enabled and
      is saved when the workout stops: the record carries every rep so far. */
  lemma RecordedRepSaved(s: Workout, userId: string, i: Inputs)
    requires Consistent(s) && CanRecordRep(s) && s.manualRepCount >= 0 && userId != ""
    ensures Consistent(RecordRep(s)) && CanRecordRep(RecordRep(s))
    ensures var (r, acts) := StartStop(RecordRep(s), userId, i);
            var t := s.selected.value;
            !Active(r) && acts != []
            && acts[0] == AddExercise(userId, BodyweightDraft(t, s.manualRepCount + 1, i.now), i.recordId)
  {
  }

  /** What the tracker measured when a run is stopped, and the inputs a start
      or a save needs from outside (the permission answer, the clock, the new
      record's id). */
  datatype Inputs = Inputs(distance: real, steps: int, permissionGranted: bool, now: string, recordId: string)

  /** The record of a stopped run. */
  function RunDraft(i: Inputs): ExerciseDraft {
    ExerciseDraft(Run, TwoDecimals(i.distance), i.now, RunReward(i.distance, i.steps).power, None, Some(i.steps))
  }

  /** The record of a stopped bodyweight workout. */
  function BodyweightDraft(t: ExerciseType, reps: int, now: string): ExerciseDraft {
    ExerciseDraft(t, reps as real, now, BodyweightReward(t, reps).power, None, None)
  }

  /** The actions that save a run: the exercise, the screen's own energy
      credit when positive, and the steps as XP. */
  function RunActions(userId: string, i: Inputs): seq<Action> {
    var reward := RunReward(i.distance, i.steps);
    [AddExercise(userId, RunDraft(i), i.recordId)]
    + (if reward.energy > 0 then [AddEnergy(reward.energy)] else [])
    + [AddExperience(reward.xp)]
  }

  /** The actions that save a bodyweight workout. */
  function BodyweightActions(userId: string, t: ExerciseType, reps: int, i: Inputs): seq<Action> {
    var reward := BodyweightReward(t, reps);
    [AddExercise(userId, BodyweightDraft(t, reps, i.now), i.recordId)]
    + (if reward.energy > 0 then [AddEnergy(reward.energy)] else [])
    + (if reward.xp > 0 then [AddExperience(reward.xp)] else [])
  }

  /** `handleStartStop`: the new screen state and the actions dispatched. The
      selection is kept; a workout under way is ended; actions are dispatched
      only when one ends with a user, and the first saves the exercise. */
  function StartStop(s: Workout, userId: string, i: Inputs): (r: (Workout, seq<Action>))
    ensures r.0.selected == s.selected
    ensures Consistent(s) ==> Consistent(r.0)
    ensures Consistent(s) && Active(s) ==> !Active(r.0)
    ensures r.1 != [] ==> userId != "" && Active(s) && r.1[0].AddExercise? && r.1[0].userId == userId
  {
    if s.selected.None? then (s, [])
    else
      var t := s.selected.value;
      var stopping := (t == Run && s.runStatus == Tracking) || (t != Run && s.isTrackingBodyweight);
      if stopping && userId == "" then
        if t == Run then (s.(runStatus := RunStatus.Idle), [])
        else (s.(isTrackingBodyweight := false, manualRepCount := 0), [])
      else if t == Run then
        if s.runStatus == Tracking then
          (s.(runStatus := RunStatus.Idle),
           if i.distance > 0.0 || i.steps > 0 then RunActions(userId, i) else [])
        else
          (s.(runStatus := if i.permissionGranted then Tracking else Error), [])
      else if s.isTrackingBodyweight then
        var reps := s.manualRepCount;
        (s.(isTrackingBodyweight := false, manualRepCount := 0),
         if reps > 0 then BodyweightActions(userId, t, reps, i) else [])
      else
        (s.(manualRepCount := 0, isTrackingBodyweight := true), [])
  }

  /** Stopping always ends the workout; nothing is saved without a user id, or
      for an empty workout (no reps, or neither distance nor steps). */
  lemma StopEndsWorkout(s: Workout, userId: string, i: Inputs)
    requires s.selected.Some?
    requires (s.selected.value == Run && s.runStatus == Tracking) || (s.selected.value != Run && s.isTrackingBodyweight)
    ensures var (r, acts) := StartStop(s, userId, i);
            r.selected == s.selected
            && (s.selected.value == Run ==> r.runStatus == RunStatus.Idle && r.isTrackingBodyweight == s.isTrackingBodyweight)
            && (s.selected.value != Run ==> !r.isTrackingBodyweight && r.manualRepCount == 0)
            && (acts != [] <==> userId != "" && (if s.selected.value == Run then i.distance > 0.0 || i.steps > 0
                                                 else s.manualRepCount > 0))
  {
  }

  /** Starting a bodyweight workout clears the count and turns tracking on;
      starting a run asks for permission and tracks only if it is granted. */
  lemma StartBeginsWorkout(s: Workout, userId: string, i: Inputs)
    requires s.selected.Some? && s.runStatus != Tracking && !s.isTrackingBodyweight
    ensures var (r, acts) := StartStop(s, userId, i);
            acts == []
            && (s.selected.value != Run ==> r.isTrackingBodyweight && r.manualRepCount == 0)
            && (s.selected.value == Run ==> (r.runStatus == Tracking <==> i.permissionGranted))
  {
  }

  /** A saved bodyweight workout of n reps: one record with n reps and
      `n * rate` power, `round(n / 2)` energy and `2n` XP, in that order. */
  lemma BodyweightSaved(s: Workout, userId: string, i: Inputs)
    requires s.selected.Some? && s.selected.value != Run && s.isTrackingBodyweight
    requires userId != "" && s.manualRepCount > 0
    ensures var (_, acts) := StartStop(s, userId, i);
            var n := s.manualRepCount;
            var t := s.selected.value;
            acts == [AddExercise(userId, ExerciseDraft(t, n as real, i.now, n * PowerPerRep(t), None, None), i.recordId),
                     AddEnergy(RoundDiv(n, 2)), AddExperience(2 * n)]
  {
    RoundDivNonNegative(s.manualRepCount, 2);
    var n := s.manualRepCount;
    assert RoundDiv(n, 2) > 0;
  }

  /** A saved run is credited its energy twice, once by the screen and once
      by the `addExercise` thunk: with energy within its maximum, the user ends
      with `min(maxEnergy, energy + 2 * round(power / 2))` and `steps` more XP. */
  lemma RunEnergyCreditedTwice(st: AppState, userId: string, i: Inputs)
    requires st.user.energy <= st.user.maxEnergy
    requires i.distance >= 0.0 && i.steps >= 0
    ensures var after := ApplyAll(st, RunActions(userId, i));
            var k := RunReward(i.distance, i.steps).energy;
            after.user.energy == Min(st.user.maxEnergy, st.user.energy + 2 * k)
            && after.user.experience == st.user.experience + i.steps
  {
    var k := RunReward(i.distance, i.steps).energy;
    var save := AddExercise(userId, RunDraft(i), i.recordId);
    RunSaveCredit(st, userId, i);
    if k > 0 {
      assert RunActions(userId, i) == [save, AddEnergy(k), AddExperience(i.steps)];
      UserSlice.AddEnergyTwice(st.user, k, k);
      ApplyAllTriple(st, save, AddEnergy(k), AddExperience(i.steps));
    } else {
      assert RunActions(userId, i) == [save, AddExperience(i.steps)];
      ApplyAllPair(st, save, AddExperience(i.steps));
    }
  }

  /** Saving a run through the `addExercise` thunk credits the user the run's
      energy once, when it is positive, and changes nothing else about the user. */
  lemma RunSaveCredit(st: AppState, userId: string, i: Inputs)
    requires i.distance >= 0.0
    ensures var k := RunReward(i.distance, i.steps).energy;
            k >= 0 && Apply(st, AddExercise(userId, RunDraft(i), i.recordId)).user
                      == (if k > 0 then UserSlice.AddEnergy(st.user, k) else st.user)
  {
    var reward := RunReward(i.distance, i.steps);
    RoundDivNonNegative(reward.power, 2);
    assert Apply(st, AddExercise(userId, RunDraft(i), i.recordId)).user
           == ThunkCredit(st.user, Saved(RunDraft(i), i.recordId, userId));
  }

  /** Every hook of the screen, changed in place by the handlers. */
  class Screen {
    var selectedExercise: Option<ExerciseType>
    var runStatus: RunStatus
    var manualRepCount: int
    var isTrackingBodyweight: bool

    function State(): Workout
      reads this
    {
      Workout(selectedExercise, runStatus, manualRepCount, isTrackingBodyweight)
    }

    constructor ()
      ensures State() == InitialWorkout
    {
      selectedExercise, runStatus, manualRepCount, isTrackingBodyweight := None, RunStatus.Idle, 0, false;
    }

    method HandleSelectExercise(t: ExerciseType)
      modifies this
      ensures State() == SelectExercise(old(State()), t)
    {
      if (runStatus == Tracking && t != Run) || (isTrackingBodyweight && t == Run) {
        return;
      }
      // The handler's two clean-up steps (stop the run, drop the bodyweight
      // count) test exactly what the guard above has excluded, so they never
      // run here; `SelectExerciseEffect` states the resulting net effect.
      selectedExercise := Some(t);
      if t != Run && !isTrackingBodyweight {
        manualRepCount := 0;
      }
    }

    method HandleRecordRep()
      modifies this
      ensures State() == RecordRep(old(State()))
    {
      manualRepCount := manualRepCount + 1;
    }

    /** `handleStartStop` against the store; the user id is read from it. */
    method HandleStartStop(store: AppStore, i: Inputs)
      modifies this, store
      ensures var (w, acts) := StartStop(old(State()), old(store.user.id), i);
              State() == w && store.State() == ApplyAll(old(store.State()), acts)
    {
      if selectedExercise.None? {
        return;
      }
      var t := selectedExercise.value;
      var userId := store.user.id;
      var isStopping := (t == Run && runStatus == Tracking) || (t != Run && isTrackingBodyweight);
      if isStopping && userId == "" {
        if t == Run && runStatus == Tracking {
          runStatus := RunStatus.Idle;
        }
        if t != Run && isTrackingBodyweight {
          isTrackingBodyweight := false;
          manualRepCount := 0;
        }
        return;
      }
      if t == Run {
        if runStatus == Tracking {
          runStatus := RunStatus.Idle;
          if userId != "" && (i.distance > 0.0 || i.steps > 0) {
            store.DispatchAll(RunActions(userId, i));
          }
        } else {
          runStatus := RequestingPermission;
          runStatus := if i.permissionGranted then Tracking else Error;
        }
      } else {
        if isTrackingBodyweight {
          var finalRepCount := manualRepCount;
          isTrackingBodyweight := false;
          manualRepCount := 0;
          if userId != "" && finalRepCount > 0 {
            store.DispatchAll(BodyweightActions(userId, t, finalRepCount, i));
          }
        } else {
          manualRepCount := 0;
          isTrackingBodyweight := true;
        }
      }
    }
  }
}
