/** The Redux store of the app (the user and exercise slices together) and the
    actions the screens dispatch to it. `AppStore` holds the state in mutable
    fields and performs each reducer in place; `Apply` is the same transition
    on values and is what the lemmas reason about. */
module Store {
  import opened Common
  import opened UserSlice
  import opened ExerciseSlice

  /** The actions the screens dispatch. `AddExercise` is the `addExercise`
      thunk as a whole: pending, the mock save that gives the record `id`,
      the thunk's run-energy credit, then the fulfilled case.
      `FetchTodayExercises` is the `fetchTodayExercises` thunk as a whole:
      pending, then the fulfilled case with what the slice's mock fetch
      returns, which is always the empty list. `UpdateLastLogin` carries the
      clock reading. */
  datatype Action =
    | SetUser(patch: UserPatch)
    | IncrementLevel
    | IncrementTier
    | AddExperience(amount: int)
    | AddEnergy(amount: int)
    | UseEnergy(amount: int)
    | FetchUserPending
    | FetchUserFulfilled(payload: FetchedUser)
    | FetchUserRejected(message: Option<string>)
    | UpdateAvatar(avatar: AvatarPatch)
    | UpdateLastLogin(now: string)
    | FetchTodayExercises(userId: string)
    | UpdateDailyGoals(goals: GoalsPatch)
    | ResetStreak
    | UsePower(amount: int)
    | AddExercise(userId: string, draft: ExerciseDraft, id: string)

  datatype AppState = AppState(user: User, exercise: ExerciseState)

  const InitialState := AppState(InitialUser, InitialExercises)

  /** The user slice after the `addExercise` thunk's own energy credit. */
  function ThunkCredit(u: User, e: Exercise): User {
    match ThunkEnergyCredit(e)
    case Some(k) => UserSlice.AddEnergy(u, k)
    case None => u
  }

  /** An action only the user slice's reducer answers. */
  predicate UserOnly(a: Action) {
    !(a.FetchTodayExercises? || a.UpdateDailyGoals? || a.ResetStreak? || a.UsePower? || a.AddExercise?)
  }

  /** An action only the exercise slice's reducer answers. */
  predicate ExerciseOnly(a: Action) {
    a.FetchTodayExercises? || a.UpdateDailyGoals? || a.ResetStreak? || a.UsePower?
  }

  /** A series of user-slice actions. */
  predicate AllUserOnly(actions: seq<Action>) {
    forall i :: 0 <= i < |actions| ==> UserOnly(actions[i])
  }

  /** A series of exercise-slice actions. */
  predicate AllExerciseOnly(actions: seq<Action>) {
    forall i :: 0 <= i < |actions| ==> ExerciseOnly(actions[i])
  }

  /** One dispatched action, applied by both slice reducers: each slice
      changes only for its own actions, and the `addExercise` thunk touches
      the user slice only through its energy credit. */
  function Apply(s: AppState, a: Action): (r: AppState)
    ensures UserOnly(a) ==> r.exercise == s.exercise
    ensures ExerciseOnly(a) ==> r.user == s.user
    ensures a.AddExercise? ==> r.user.(energy := s.user.energy) == s.user
  {
    match a
    case SetUser(p) => s.(user := UserSlice.SetUser(s.user, p))
    case IncrementLevel => s.(user := UserSlice.IncrementLevel(s.user))
    case IncrementTier => s.(user := UserSlice.IncrementTier(s.user))
    case AddExperience(n) => s.(user := UserSlice.AddExperience(s.user, n))
    case AddEnergy(n) => s.(user := UserSlice.AddEnergy(s.user, n))
    case UseEnergy(n) => s.(user := UserSlice.UseEnergy(s.user, n))
    case FetchUserPending => s.(user := FetchPending(s.user))
    case FetchUserFulfilled(p) => s.(user := FetchFulfilled(s.user, p))
    case FetchUserRejected(m) => s.(user := FetchRejected(s.user, m))
    case UpdateAvatar(p) => s.(user := UserSlice.UpdateAvatar(s.user, p))
    case UpdateLastLogin(now) => s.(user := UserSlice.UpdateLastLogin(s.user, now))
    case FetchTodayExercises(_) => s.(exercise := FetchTodayFulfilled(LoadPending(s.exercise), []))
    case UpdateDailyGoals(g) => s.(exercise := ExerciseSlice.UpdateDailyGoals(s.exercise, g))
    case ResetStreak => s.(exercise := ExerciseSlice.ResetStreak(s.exercise))
    case UsePower(n) => s.(exercise := ExerciseSlice.UsePower(s.exercise, n))
    case AddExercise(uid, d, id) =>
      var e := Saved(d, id, uid);
      AppState(ThunkCredit(s.user, e), AddExerciseFulfilled(LoadPending(s.exercise), e))
  }

  /** A sequence of actions dispatched in order: a series of one slice's
      actions leaves the other slice as it was. */
  function ApplyAll(s: AppState, actions: seq<Action>): (r: AppState)
    ensures AllUserOnly(actions) ==> r.exercise == s.exercise
    ensures AllExerciseOnly(actions) ==> r.user == s.user
    decreases |actions|
  {
    if actions == [] then s else ApplyAll(Apply(s, actions[0]), actions[1..])
  }

  /** Dispatching xs then ys is dispatching xs + ys. */
  lemma {:induction false} ApplyAllAppend(s: AppState, xs: seq<Action>, ys: seq<Action>)
    ensures ApplyAll(s, xs + ys) == ApplyAll(ApplyAll(s, xs), ys)
    decreases |xs|
  {
    if xs != [] {
      assert (xs + ys)[0] == xs[0] && (xs + ys)[1..] == xs[1..] + ys;
      assert ApplyAll(s, xs + ys) == ApplyAll(Apply(s, xs[0]), xs[1..] + ys);
      ApplyAllAppend(Apply(s, xs[0]), xs[1..], ys);
    } else {
      assert xs + ys == ys;
    }
  }

  /** Dispatching one more action after xs. */
  lemma ApplyAllSnoc(s: AppState, xs: seq<Action>, a: Action)
    ensures ApplyAll(s, xs + [a]) == Apply(ApplyAll(s, xs), a)
  {
    ApplyAllAppend(s, xs, [a]);
    assert [a][1..] == [];
  }

  /** Dispatching two actions in a row. */
  lemma ApplyAllPair(s: AppState, a: Action, b: Action)
    ensures ApplyAll(s, [a, b]) == Apply(Apply(s, a), b)
  {
    assert [a, b][1..] == [b] && [b][1..] == [];
  }

  /** Dispatching three actions in a row. */
  lemma ApplyAllTriple(s: AppState, a: Action, b: Action, c: Action)
    ensures ApplyAll(s, [a, b, c]) == Apply(Apply(Apply(s, a), b), c)
  {
    assert [a, b, c][1..] == [b, c];
    ApplyAllPair(Apply(s, a), b, c);
  }

  /** The store invariant: energy within [0, maxEnergy], 0 <= currentStreak <= longestStreak. */
  ghost predicate Invariant(s: AppState) {
    EnergyInRange(s.user) && StreakInRange(s.exercise)
  }

  /** Actions whose amounts are non-negative (and whose payloads carry no negative energy). */
  predicate NonNegative(a: Action) {
    match a
    case SetUser(p) => (p.energy.Some? ==> p.energy.value >= 0) && (p.maxEnergy.Some? ==> p.maxEnergy.value >= 0)
    case AddExperience(n) => n >= 0
    case AddEnergy(n) => n >= 0
    case UseEnergy(n) => n >= 0
    case UsePower(n) => n >= 0
    case FetchUserFulfilled(p) => (p.energy.Num? ==> p.energy.n >= 0) && (p.maxEnergy.Num? ==> p.maxEnergy.n >= 0)
    case _ => true
  }

  lemma ApplyKeepsInvariant(s: AppState, a: Action)
    requires Invariant(s) && NonNegative(a)
    ensures Invariant(Apply(s, a))
  {
    match a
    case AddExercise(uid, d, id) =>
      StreakInvariantKept(LoadPending(s.exercise), Saved(d, id, uid), 0, GoalsPatch(None, None, None, None), [], None);
    case _ =>
  }

  /** From any state within the invariant (the initial state among them), every
      sequence of actions with non-negative amounts keeps energy in
      [0, maxEnergy] and currentStreak <= longestStreak. */
  lemma {:induction false} ApplyAllKeepsInvariant(s: AppState, actions: seq<Action>)
    requires Invariant(s)
    requires forall i :: 0 <= i < |actions| ==> NonNegative(actions[i])
    ensures Invariant(ApplyAll(s, actions))
    decreases |actions|
  {
    if actions != [] {
      ApplyKeepsInvariant(s, actions[0]);
      ApplyAllKeepsInvariant(Apply(s, actions[0]), actions[1..]);
    }
  }

  lemma InitialStateInvariant()
    ensures Invariant(InitialState) && InitialState.user.energy == InitialState.user.maxEnergy == 100
  {
  }

  /** The store object. Each reducer changes the slice it owns in place, one
      statement of the reducer at a time; `Apply` is the same transition on values. */
  class AppStore {
    var user: User
    var exercise: ExerciseState

    function State(): AppState
      reads this
    {
      AppState(user, exercise)
    }

    constructor ()
      ensures State() == InitialState
    {
      user := InitialUser;
      exercise := InitialExercises;
    }

    method SetUser(p: UserPatch)
      modifies this
      ensures State() == Apply(old(State()), Action.SetUser(p))
    {
      user := Assign(user, p);
      user := user.(energy := Min(user.energy, user.maxEnergy));
    }

    method IncrementLevel()
      modifies this
      ensures State() == Apply(old(State()), Action.IncrementLevel)
    {
      user := user.(level := user.level + 1);
      user := user.(maxEnergy := user.maxEnergy + 10);
      user := user.(energy := user.maxEnergy);
    }

    method IncrementTier()
      modifies this
      ensures State() == Apply(old(State()), Action.IncrementTier)
    {
      user := user.(tier := user.tier + 1);
      if user.tier == 1 {
        user := user.(heroTitle := "Novice Hero");
      } else if user.tier == 2 {
        user := user.(heroTitle := "Rising Hero");
      } else if user.tier == 3 {
        user := user.(heroTitle := "Elite Hero");
      } else if user.tier >= 4 {
        user := user.(heroTitle := "One Punch Hero");
      }
      user := user.(maxEnergy := user.maxEnergy + 50);
      user := user.(energy := user.maxEnergy);
    }

    method AddExperience(n: int)
      modifies this
      ensures State() == Apply(old(State()), Action.AddExperience(n))
    {
      user := user.(experience := user.experience + n);
    }

    method AddEnergy(n: int)
      modifies this
      ensures State() == Apply(old(State()), Action.AddEnergy(n))
    {
      user := user.(energy := Min(user.maxEnergy, user.energy + n));
    }

    method UseEnergy(n: int)
      modifies this
      ensures State() == Apply(old(State()), Action.UseEnergy(n))
    {
      user := user.(energy := Max(0, user.energy - n));
    }

    method FetchUserPending()
      modifies this
      ensures State() == Apply(old(State()), Action.FetchUserPending)
    {
      user := user.(status := Loading);
      user := user.(error := None);
    }

    method FetchUserFulfilled(p: FetchedUser)
      modifies this
      ensures State() == Apply(old(State()), Action.FetchUserFulfilled(p))
    {
      user := user.(status := Succeeded);
      var energy := AfterAssign(p.energy, user.energy);
      var maxEnergy := AfterAssign(p.maxEnergy, user.maxEnergy);
      user := user.(id := p.id, name := p.name, level := p.level, tier := p.tier,
                    experience := p.experience, heroTitle := p.heroTitle, avatar := p.avatar,
                    createdAt := p.createdAt, lastLogin := p.lastLogin);
      user := user.(maxEnergy := if maxEnergy.Num? then maxEnergy.n else 100);
      user := user.(energy := Min(if energy.Num? then energy.n else 100, user.maxEnergy));
    }

    method FetchUserRejected(message: Option<string>)
      modifies this
      ensures State() == Apply(old(State()), Action.FetchUserRejected(message))
    {
      user := user.(status := Failed);
      user := user.(error := Some(if message.Some? && message.value != "" then message.value
                                  else "Failed to fetch user"));
      user := user.(id := "");
    }

    method UpdateAvatar(p: AvatarPatch)
      modifies this
      ensures State() == Apply(old(State()), Action.UpdateAvatar(p))
    {
      user := user.(avatar := Avatar(p.costume.GetOr(user.avatar.costume), p.color.GetOr(user.avatar.color)));
    }

    method UpdateLastLogin(now: string)
      modifies this
      ensures State() == Apply(old(State()), Action.UpdateLastLogin(now))
    {
      user := user.(lastLogin := now);
    }

    method FetchTodayFulfilled(fetched: seq<Exercise>)
      modifies this
      ensures exercise == ExerciseSlice.FetchTodayFulfilled(old(exercise), fetched) && user == old(user)
    {
      exercise := exercise.(status := Succeeded);
      exercise := exercise.(todayExercises := fetched);
    }

    /** The `fetchTodayExercises` thunk: pending, then the mock's empty list. */
    method FetchTodayExercises(userId: string)
      modifies this
      ensures State() == Apply(old(State()), Action.FetchTodayExercises(userId))
    {
      LoadPending();
      FetchTodayFulfilled([]);
    }

    method UpdateDailyGoals(g: GoalsPatch)
      modifies this
      ensures State() == Apply(old(State()), Action.UpdateDailyGoals(g))
    {
      var d := exercise.dailyGoals;
      exercise := exercise.(dailyGoals := DailyGoals(g.pushups.GetOr(d.pushups), g.situps.GetOr(d.situps),
                                                     g.squats.GetOr(d.squats), g.runDistance.GetOr(d.runDistance)));
    }

    method ResetStreak()
      modifies this
      ensures State() == Apply(old(State()), Action.ResetStreak)
    {
      exercise := exercise.(currentStreak := 0);
    }

    method UsePower(n: int)
      modifies this
      ensures State() == Apply(old(State()), Action.UsePower(n))
    {
      exercise := exercise.(totalPower := Max(0, exercise.totalPower - n));
    }

    /** The pending case of `addExercise` and of `fetchTodayExercises`. */
    method LoadPending()
      modifies this
      ensures exercise == ExerciseSlice.LoadPending(old(exercise)) && user == old(user)
    {
      exercise := exercise.(status := Loading);
      exercise := exercise.(error := None);
    }

    method AddExerciseFulfilled(e: Exercise)
      modifies this
      ensures exercise == ExerciseSlice.AddExerciseFulfilled(old(exercise), e) && user == old(user)
    {
      exercise := exercise.(status := Succeeded);
      if !HasId(exercise.todayExercises, e.id) {
        exercise := exercise.(todayExercises := exercise.todayExercises + [e]);
      }
      exercise := exercise.(history := exercise.history + [e]);
      if e.kind == Pushup || e.kind == Situp || e.kind == Squat {
        exercise := exercise.(totalPower := exercise.totalPower + e.powerGenerated);
      }
      var today := DayKey(e);
      if LastDayKey(exercise.lastWorkoutDate) != Some(today) {
        exercise := exercise.(currentStreak := exercise.currentStreak + 1);
        exercise := exercise.(lastWorkoutDate := Some(today));
        if exercise.currentStreak > exercise.longestStreak {
          exercise := exercise.(longestStreak := exercise.currentStreak);
        }
      }
    }

    /** The rejected case of `addExercise` and of `fetchTodayExercises`. */
    method LoadRejected(message: Option<string>)
      modifies this
      ensures exercise == ExerciseSlice.LoadRejected(old(exercise), message) && user == old(user)
    {
      exercise := exercise.(status := Failed);
      exercise := exercise.(error := Some(if message.Some? && message.value != "" then message.value else "Failed"));
    }

    /** The `addExercise` thunk: pending, the save (the record gets `recordId`
        and the user's id), the run-energy credit, then the fulfilled case. */
    method AddExercise(userId: string, draft: ExerciseDraft, recordId: string)
      modifies this
      ensures State() == Apply(old(State()), Action.AddExercise(userId, draft, recordId))
    {
      LoadPending();
      var saved := Saved(draft, recordId, userId);
      if saved.kind == Run {
        var energyGained := RoundDiv(saved.powerGenerated, 2);
        if energyGained > 0 {
          AddEnergy(energyGained);
        }
      }
      AddExerciseFulfilled(saved);
    }

    method Dispatch(a: Action)
      modifies this
      ensures State() == Apply(old(State()), a)
    {
      match a
      case SetUser(p) => SetUser(p);
      case IncrementLevel => IncrementLevel();
      case IncrementTier => IncrementTier();
      case AddExperience(n) => AddExperience(n);
      case AddEnergy(n) => AddEnergy(n);
      case UseEnergy(n) => UseEnergy(n);
      case FetchUserPending => FetchUserPending();
      case FetchUserFulfilled(p) => FetchUserFulfilled(p);
      case FetchUserRejected(m) => FetchUserRejected(m);
      case UpdateAvatar(p) => UpdateAvatar(p);
      case UpdateLastLogin(now) => UpdateLastLogin(now);
      case FetchTodayExercises(uid) => FetchTodayExercises(uid);
      case UpdateDailyGoals(g) => UpdateDailyGoals(g);
      case ResetStreak => ResetStreak();
      case UsePower(n) => UsePower(n);
      case AddExercise(uid, d, rid) => AddExercise(uid, d, rid);
    }

    /** Dispatches the actions one after another; with non-negative amounts the
        store invariant survives. */
    method DispatchAll(actions: seq<Action>)
      modifies this
      ensures State() == ApplyAll(old(State()), actions)
      ensures (Invariant(old(State())) && forall i :: 0 <= i < |actions| ==> NonNegative(actions[i]))
              ==> Invariant(State())
    {
      var i := 0;
      while i < |actions|
        invariant 0 <= i <= |actions|
        invariant ApplyAll(State(), actions[i..]) == ApplyAll(old(State()), actions)
      {
        Dispatch(actions[i]);
        assert actions[i..][1..] == actions[i + 1..];
        i := i + 1;
      }
      if Invariant(old(State())) && forall i :: 0 <= i < |actions| ==> NonNegative(actions[i]) {
        ApplyAllKeepsInvariant(old(State()), actions);
      }
    }
  }
}
