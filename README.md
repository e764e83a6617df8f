# ZeroToHero: a Dafny model of the app's state and screen logic

ZeroToHero is a React Native fitness game. Workouts earn power, energy and
experience, and these are spent fighting bosses. This project models the
app's core in Dafny and proves properties of the model:

- the two Redux slices, `user` and `exercise`, with their thunks;
- the store that combines them;
- the local database of profiles and exercise records;
- the logic of the four screens that read and change that state. These are
  the battle, the exercise tracker, the dashboard and the profile.

Layout, one module per file:

- `common.dfy` (`Common`): `Option`, the four-valued load `Status`, and
  JavaScript's `Math.round` on quotients and reals.
- `text.dfy` (`Text`): `split('T')[0]`, `startsWith`, string comparison
  and `trim`.
- `user_slice.dfy` (`UserSlice`) and `exercise_slice.dfy` (`ExerciseSlice`):
  the reducers as functions on slice values.
- `store.dfy` (`Store`): the actions the screens dispatch, the combined
  state and `Apply`/`ApplyAll`. The class `AppStore` performs each reducer
  in place on its two fields. `DispatchAll` dispatches a list of actions
  in a loop.
- `database.dfy` (`Database`): the class `LocalDatabase`. It holds the
  stored profile and the exercise history. Its methods follow
  `src/utils/database.ts`, and a failing storage call is an input.
- `battle_screen.dfy`, `exercise_screen.dfy`, `dashboard_screen.dfy` and
  `profile_screen.dfy` each model one screen.
  - Every handler is a function. It returns the screen's new local state
    and the actions it dispatches.
  - A class holds the screen's `useState` fields. Its handler methods
    update those fields and dispatch to an `AppStore`.
  - Each method is proved equal to its function. The lemmas about the
    functions state what the screen promises.

Inputs the code reads from outside become parameters:

- the clock (`now`);
- generated ids;
- the random roll of the boss's counter-attack;
- the run tracker's distance and steps, and the location permission answer;
- whether a storage write succeeds.

## Model

| member | source | states |
|---|---|---|
| UserSlice.SetUser | src/features/user/userSlice.ts:71 | the payload's present keys overwrite, absent keys keep; energy is then min(energy, maxEnergy) |
| UserSlice.IncrementLevel | src/features/user/userSlice.ts:72 | level +1, maxEnergy +10, energy refilled to the new maximum, nothing else changes |
| UserSlice.TierTitle | src/features/user/userSlice.ts:73 | a tier of 1 or more has a title; tier 0 or below keeps the current one |
| UserSlice.IncrementTier | src/features/user/userSlice.ts:73 | tier +1, the title of the new tier, maxEnergy +50, energy refilled, nothing else changes |
| UserSlice.AddExperience | src/features/user/userSlice.ts:74 | experience grows by exactly the amount, nothing else changes |
| UserSlice.UpdateAvatar | src/features/user/userSlice.ts:75 | each avatar key present in the payload replaces the old one, absent keys keep, nothing else changes |
| UserSlice.UpdateAvatarIdempotent | src/features/user/userSlice.ts:75 | merging the same avatar patch twice equals merging it once |
| UserSlice.UpdateLastLogin | src/features/user/userSlice.ts:76 | lastLogin becomes the clock reading, nothing else changes |
| UserSlice.AddEnergy | src/features/user/userSlice.ts:77 | energy becomes energy + n, capped at maxEnergy |
| UserSlice.UseEnergy | src/features/user/userSlice.ts:78 | energy becomes energy - n, floored at 0 |
| UserSlice.AddEnergyTwice | src/features/user/userSlice.ts:77 | two capped credits equal one credit of their sum, in either order |
| UserSlice.FetchPending | src/features/user/userSlice.ts:82 | status loading, error cleared, nothing else changes |
| UserSlice.MockFetchedUser | src/features/user/userSlice.ts:6-26 | the mock profile has energy and maxEnergy 100, tier 0 and level 1 |
| UserSlice.FetchedMaxEnergy | src/features/user/userSlice.ts:86-89 | maxEnergy after the load: the payload's number, the old value when the key is absent, 100 when undefined |
| UserSlice.FetchedEnergyAsWrittenBreaksBound | src/features/user/userSlice.ts:86-89 | as written, the load can leave energy NaN, or 100 above a maxEnergy of 50 |
| UserSlice.FetchFulfilled | src/features/user/userSlice.ts:83-90 | status succeeded; the profile fields come from the payload; energy is min(energy, maxEnergy) with maxEnergy defaulted first, 100 when energy is not a number, so it never exceeds maxEnergy; the same result as the code whenever the code's energy is a number within maxEnergy |
| UserSlice.FetchRejected | src/features/user/userSlice.ts:91 | status failed, id cleared, error set to the message or to "Failed to fetch user" |
| UserSlice.LedgerKeepsEnergyInRange | src/features/user/userSlice.ts:72-82 | incrementLevel, incrementTier, addExperience, updateAvatar, updateLastLogin, addEnergy, useEnergy, fetchUser.pending and fetchUser.rejected (any message) keep 0 <= energy <= maxEnergy, given non-negative amounts; setUser and fetchUser.fulfilled are covered by Store.ApplyKeepsInvariant |
| ExerciseSlice.Saved | src/features/exercise/exerciseSlice.ts:38-43 | a saved record is the draft with the new id and the user id |
| ExerciseSlice.UpdateDailyGoals | src/features/exercise/exerciseSlice.ts:85 | each goal present in the payload replaces the old one, the others keep, nothing else changes |
| ExerciseSlice.ResetStreak | src/features/exercise/exerciseSlice.ts:86 | currentStreak becomes 0, nothing else changes |
| ExerciseSlice.UsePower | src/features/exercise/exerciseSlice.ts:87 | totalPower becomes totalPower - n, floored at 0 |
| ExerciseSlice.LoadPending | src/features/exercise/exerciseSlice.ts:91 | status loading, error cleared, nothing else changes (used for both thunks) |
| ExerciseSlice.FetchTodayFulfilled | src/features/exercise/exerciseSlice.ts:92 | status succeeded and today's list replaced by the fetched one, nothing else changes |
| ExerciseSlice.LoadRejected | src/features/exercise/exerciseSlice.ts:93 | status failed and a non-empty error: the message, or "Failed" (used for both thunks) |
| ExerciseSlice.DayKey | src/features/exercise/exerciseSlice.ts:102 | a record's day key is the prefix of its date before the first 'T': it holds no 'T' and is followed in the date by 'T' or by nothing (dates taken as canonical UTC stamps, see Left out) |
| ExerciseSlice.LastDayKey | src/features/exercise/exerciseSlice.ts:103 | a last-workout key exists exactly when the date is present and non-empty |
| ExerciseSlice.AddExerciseFulfilled | src/features/exercise/exerciseSlice.ts:95-105 | appended to history; added to today's list unless its id is there; strength power added; the streak grows by one exactly when the day differs from the last workout's day, and longestStreak follows |
| ExerciseSlice.ThunkEnergyCredit | src/features/exercise/exerciseSlice.ts:71-74 | a credit is made exactly for a run with positive power, and it is round(power / 2) |
| ExerciseSlice.SameDayKeepsStreak | src/features/exercise/exerciseSlice.ts:102-104 | more workouts on the day of the last one leave both streaks unchanged |
| ExerciseSlice.SameDayStreakAtMostOne | src/features/exercise/exerciseSlice.ts:102-104 | any number of workouts on one day raise the streak by at most one |
| ExerciseSlice.StreakInvariantKept | src/features/exercise/exerciseSlice.ts:85-106 | every reducer keeps 0 <= currentStreak <= longestStreak |
| ExerciseSlice.TodayIdsStayDistinct | src/features/exercise/exerciseSlice.ts:98 | today's list keeps distinct ids and contains the saved record afterwards |
| ExerciseSlice.PowerAccrues | src/features/exercise/exerciseSlice.ts:100-101 | after a series of saves, totalPower has grown by exactly the power of its strength records |
| ExerciseSlice.HistoryAccrues | src/features/exercise/exerciseSlice.ts:99 | after a series of saves, the history is the old one followed by the series, in order |
| Store.ApplyAllAppend | src/store/store.ts:6-11 | dispatching xs then ys equals dispatching xs + ys |
| Store.Apply | src/store/store.ts:6-11 | one action through both slice reducers: a user-slice action leaves the exercise slice as it was, an exercise-slice action leaves the user slice as it was, and the addExercise thunk changes only the user's energy |
| Store.ApplyAll | src/store/store.ts:6-11 | a series of one slice's actions leaves the other slice as it was |
| Store.ApplyKeepsInvariant | src/features/user/userSlice.ts:71-91 | one action with non-negative amounts keeps energy in [0, maxEnergy] and the streak in order; for fetchUser.fulfilled this holds of the corrected reducer (UserSlice.FetchFulfilled), not of userSlice.ts:86-89 as written (see Findings) |
| Store.ApplyAllKeepsInvariant | src/features/exercise/exerciseSlice.ts:85-106 | every series of actions with non-negative amounts keeps the store invariant; the energy half relies on the corrected fetchUser.fulfilled, as in Store.ApplyKeepsInvariant |
| Store.InitialStateInvariant | src/features/user/userSlice.ts:45-50 | the initial state meets the invariant, with energy and maxEnergy 100 |
| Store.AppStore.constructor | src/features/exercise/exerciseSlice.ts:30-35 | the store starts in both slices' initial states |
| Store.AppStore.SetUser | src/features/user/userSlice.ts:71 | the fields updated in place equal the SetUser reducer |
| Store.AppStore.IncrementLevel | src/features/user/userSlice.ts:72 | in place, equal to the reducer |
| Store.AppStore.IncrementTier | src/features/user/userSlice.ts:73 | in place, equal to the reducer |
| Store.AppStore.AddExperience | src/features/user/userSlice.ts:74 | in place, equal to the reducer |
| Store.AppStore.UpdateAvatar | src/features/user/userSlice.ts:75 | in place, equal to the reducer |
| Store.AppStore.UpdateLastLogin | src/features/user/userSlice.ts:76 | in place, equal to the reducer |
| Store.AppStore.AddEnergy | src/features/user/userSlice.ts:77 | in place, equal to the reducer |
| Store.AppStore.UseEnergy | src/features/user/userSlice.ts:78 | in place, equal to the reducer |
| Store.AppStore.FetchUserPending | src/features/user/userSlice.ts:82 | in place, equal to the reducer |
| Store.AppStore.FetchUserFulfilled | src/features/user/userSlice.ts:83-90 | in place, equal to the corrected reducer |
| Store.AppStore.FetchUserRejected | src/features/user/userSlice.ts:91 | in place, equal to the reducer |
| Store.AppStore.UpdateDailyGoals | src/features/exercise/exerciseSlice.ts:85 | in place, equal to the reducer |
| Store.AppStore.ResetStreak | src/features/exercise/exerciseSlice.ts:86 | in place, equal to the reducer |
| Store.AppStore.UsePower | src/features/exercise/exerciseSlice.ts:87 | in place, equal to the reducer |
| Store.AppStore.LoadPending | src/features/exercise/exerciseSlice.ts:91 | in place, equal to the pending reducer; the user slice is untouched |
| Store.AppStore.FetchTodayFulfilled | src/features/exercise/exerciseSlice.ts:92 | in place, equal to the reducer; the user slice is untouched |
| Store.AppStore.LoadRejected | src/features/exercise/exerciseSlice.ts:93 | in place, equal to the rejected reducer; the user slice is untouched |
| Store.AppStore.AddExerciseFulfilled | src/features/exercise/exerciseSlice.ts:95-105 | in place, equal to the reducer; the user slice is untouched |
| Store.AppStore.FetchTodayExercises | src/features/exercise/exerciseSlice.ts:44-63 | the thunk: pending, then fulfilled with the mock's empty list |
| Store.AppStore.AddExercise | src/features/exercise/exerciseSlice.ts:66-78 | the thunk: pending, the mock save, the run's energy credit, then fulfilled |
| Store.AppStore.Dispatch | src/store/store.ts:6-11 | dispatching any action changes the state as Apply says |
| Store.AppStore.DispatchAll | src/screens/ExerciseScreen.tsx:270-276 | dispatching a series equals ApplyAll, and keeps the invariant when the amounts are non-negative |
| Text.DatePart | src/features/exercise/exerciseSlice.ts:102-103 | `split('T')[0]` is the prefix before the first 'T' (the whole string when it has none) |
| Text.DatePartOfStamp | src/utils/database.ts:131 | the date part of `day + "T" + time` is the day, and the stamp starts with the day |
| Text.LexLeTotal | src/utils/database.ts:131-132 | string comparison is total |
| Text.LexLeAntisymmetric | src/utils/database.ts:131-132 | string comparison is antisymmetric |
| Text.LexLeTransitive | src/utils/database.ts:131-132 | string comparison is transitive |
| Text.TrimSpec | src/screens/ProfileScreen.tsx:47 | `trim` keeps a contiguous piece with only whitespace cut on either side |
| Text.TrimEndsClean | src/screens/ProfileScreen.tsx:47 | what `trim` keeps neither starts nor ends with whitespace |
| Text.TrimEmptyIff | src/screens/ProfileScreen.tsx:47 | the trimmed name is empty exactly when the text is all whitespace |
| Text.TrimIdempotent | src/screens/ProfileScreen.tsx:47 | trimming twice equals trimming once |
| Database.NumberOr100 | src/utils/database.ts:34-35 | a number is kept; anything else becomes 100 |
| Database.Normalized | src/utils/database.ts:32-36 | a loaded profile gets numeric energy and maxEnergy (100 when missing), and every other field is as stored |
| Database.NormalizedIdempotent | src/utils/database.ts:34-35 | normalising twice equals normalising once |
| Database.NewUser | src/utils/database.ts:40-52 | a new profile is already normalised and has full energy |
| Database.NewUserDefaults | src/utils/database.ts:40-52 | a new profile is Hero, level 1, tier 0, 0 XP, 100/100 energy, "Beginner", created and last logged in now |
| Database.LoadedProfileClampAgrees | src/utils/database.ts:34-35 | on a normalised profile, the fetchUser clamp as written and the corrected clamp agree |
| Database.Filter | src/utils/database.ts:108-111 | the filter returns exactly the matching records of the history, in history order |
| Database.FilterAppend | src/utils/database.ts:129-133 | filtering distributes over concatenation |
| Database.RecordFoundByItsDay | src/utils/database.ts:77-118 | a record just added is returned, last, by its day's query and by its one-day range |
| Database.RangeOfOneDay | src/utils/database.ts:100-140 | on dates whose date part is as long as the day, the one-day range matches exactly when the day prefix does |
| Database.OneDayRangeIsDay | src/utils/database.ts:100-140 | over such a history, getExercisesByDateRange(u, d, d) returns what getExercisesByDate(u, d) returns |
| Database.FreshIdKeepsIdsDistinct | src/utils/database.ts:83-90 | a record with a fresh id keeps the history's ids distinct |
| Database.LocalDatabase.constructor | src/utils/database.ts:26-30 | nothing is stored at first |
| Database.LocalDatabase.GetOrCreateUser | src/utils/database.ts:26-62 | returns the stored profile normalised, or creates, stores and returns a new one; a storage failure rejects with its message and writes nothing |
| Database.LocalDatabase.SaveUserData | src/utils/database.ts:64-73 | the profile is overwritten, or the call rejects and nothing changes |
| Database.LocalDatabase.AddExerciseRecord | src/utils/database.ts:77-98 | the saved record is appended and returned, or the call rejects and the history is unchanged |
| Database.LocalDatabase.GetExercisesByDate | src/utils/database.ts:100-118 | returns exactly the user's records whose date starts with the day, in order, or the error |
| Database.LocalDatabase.GetExercisesByDateRange | src/utils/database.ts:120-140 | returns exactly the user's records whose date part lies in [start, end], in order, or the error |
| Database.LocalDatabase.ClearAllData | src/utils/database.ts:155-164 | the profile and the history are both removed |
| BattleScreen.CostTable | src/screens/BattleScreen.tsx:36-37 | each attack costs twice as much power as energy, and stronger attacks cost more |
| BattleScreen.Damage | src/screens/BattleScreen.tsx:65 | damage is round(power * factor) for the attack kind, and at least 1 |
| BattleScreen.DamageAtCost | src/screens/BattleScreen.tsx:65 | at their costs, the attacks deal 8, 30 and 65 |
| BattleScreen.DamageMonotone | src/screens/BattleScreen.tsx:65 | more power never deals less damage |
| BattleScreen.UpToTier | src/screens/BattleScreen.tsx:61 | the bosses up to a tier: no more than the catalog holds, and none above that tier |
| BattleScreen.UpToTierMembers | src/screens/BattleScreen.tsx:61 | a boss is in the list exactly when it is in the catalog and its tier is at most the limit |
| BattleScreen.LoadBosses | src/screens/BattleScreen.tsx:61 | the list has every boss up to one tier above the user's, at full health, defeated exactly when a recorded victory names it; an unreadable history gives no list |
| BattleScreen.CatalogByTier | src/screens/BattleScreen.tsx:61 | the catalog's first four bosses are tier 1, and the whole catalog is tier 2 or below |
| BattleScreen.NewUserBosses | src/screens/BattleScreen.tsx:61 | a new user sees the four tier-1 bosses, none defeated |
| BattleScreen.CatalogTiers | src/screens/BattleScreen.tsx:61 | the catalog has five bosses: four of tier 1 and one of tier 2 |
| BattleScreen.MarkDefeated | src/screens/BattleScreen.tsx:68 | the boss with the id is marked defeated and every other boss is unchanged |
| BattleScreen.OfTier | src/screens/BattleScreen.tsx:68 | the bosses of one tier, and only those |
| BattleScreen.TierClearedIff | src/screens/BattleScreen.tsx:68 | the tier-up test holds exactly when the next tier has a boss and all its bosses are defeated |
| BattleScreen.Logged | src/screens/BattleScreen.tsx:66 | the new entry comes first, the older ones follow, and at most 20 are kept |
| BattleScreen.Reversed | src/screens/BattleScreen.tsx:66 | the entries in reverse order |
| BattleScreen.AddLogsNewestFirst | src/screens/BattleScreen.tsx:66 | logging several entries keeps the 20 newest, newest first |
| BattleScreen.Load | src/screens/BattleScreen.tsx:58-62 | loading ends; without a user id nothing is loaded; otherwise the boss list is loaded from the catalog and the history |
| BattleScreen.StartBattle | src/screens/BattleScreen.tsx:64 | the boss is selected at full health, the log is the opening line, the fight is ongoing and the modal is shown |
| BattleScreen.StartedFightLands | src/screens/BattleScreen.tsx:64-67 | after an enabled Battle button, the opening quick attack lands: usePower and useEnergy at its costs, and the boss at full health less 8 |
| BattleScreen.BossDefeated | src/screens/BattleScreen.tsx:68 | the selection, modal and loading flag are kept; the result stays or becomes victory; at most the one victory record for this boss and user is stored, only with victory; anything dispatched ends with the XP of round(maxHealth / 5), and only after the record is stored |
| BattleScreen.Attack | src/screens/BattleScreen.tsx:67 | nothing is dispatched unless the attack is affordable, and then usePower and useEnergy at its costs come first; a record is stored only on a victory; the modal and loading flag are kept |
| BattleScreen.Landed | src/screens/BattleScreen.tsx:67 | a paid attack dispatches its costs first and leaves the boss at max(0, health - damage); a record is stored only when that is 0 and the fight is won |
| BattleScreen.BossDefeatedEffect | src/screens/BattleScreen.tsx:68 | with a user: victory and its log line; a victory record is stored exactly when its write succeeds; a stored record marks the boss defeated; incrementTier is dispatched exactly when the record and the tier are saved and the next tier is cleared; XP round(maxHealth / 5) follows unless a write fails |
| BattleScreen.AttackIgnored | src/screens/BattleScreen.tsx:67 | without an ongoing fight an attack does nothing |
| BattleScreen.AttackRefused | src/screens/BattleScreen.tsx:67 | with too little energy or power, the attack only logs why |
| BattleScreen.AttackLands | src/screens/BattleScreen.tsx:67 | a paid attack dispatches usePower then useEnergy at the costs and lowers the boss's health by the damage, floored at 0; at 0 health with a user the fight is won |
| BattleScreen.AttackNeverLoses | src/screens/BattleScreen.tsx:67 | an attack never sets defeat: the result stays the same or becomes victory |
| BattleScreen.EndBattle | src/screens/BattleScreen.tsx:69 | the modal closes and the selection, log and result are cleared; the boss list is kept |
| BattleScreen.EnabledAttackLands | src/screens/BattleScreen.tsx:159-176 | an attack whose button is enabled is paid and never logged as refused |
| BattleScreen.HitPaysExactly | src/screens/BattleScreen.tsx:67 | an affordable attack takes exactly its costs from energy and power |
| BattleScreen.HistoryOf | src/screens/BattleScreen.tsx:61 | the user's battle history holds exactly the user's records |
| BattleScreen.HistoryOfAppend | src/screens/BattleScreen.tsx:68 | adding a record extends the user's history by that record when it is theirs |
| BattleScreen.VictoryPersists | src/screens/BattleScreen.tsx:61-68 | after a stored victory, the next load shows that boss as defeated |
| BattleScreen.Screen.constructor | src/screens/BattleScreen.tsx:45-50 | the screen starts with no list, no selection, an empty log, no result, and loading |
| BattleScreen.Screen.LoadBossData | src/screens/BattleScreen.tsx:58-62 | in place, equal to Load |
| BattleScreen.Screen.AddLog | src/screens/BattleScreen.tsx:66 | in place, equal to Logged |
| BattleScreen.Screen.HandleStartBattle | src/screens/BattleScreen.tsx:64 | in place, equal to StartBattle |
| BattleScreen.Screen.HandleBossDefeated | src/screens/BattleScreen.tsx:68 | the screen, the store and the stored records change as BossDefeated says |
| BattleScreen.Screen.HandleAttack | src/screens/BattleScreen.tsx:67 | the screen, the store and the stored records change as Attack says |
| BattleScreen.Screen.LandHit | src/screens/BattleScreen.tsx:67 | the paid part of an attack, equal to Landed |
| BattleScreen.Screen.PayHit | src/screens/BattleScreen.tsx:67 | the hit lowers the boss's health and logs the hit; usePower and useEnergy are dispatched at the costs; the user's id and tier are untouched |
| BattleScreen.Screen.HandleEndBattle | src/screens/BattleScreen.tsx:69 | in place, equal to EndBattle |
| ExerciseScreen.FormatExerciseName | src/screens/ExerciseScreen.tsx:47-60 | the label is empty exactly when no exercise is selected |
| ExerciseScreen.FormatExerciseNameInjective | src/screens/ExerciseScreen.tsx:47-60 | different exercises get different labels |
| ExerciseScreen.BodyweightReward | src/screens/ExerciseScreen.tsx:297-302 | power is reps times 7, 4 or 5; energy is round(reps / 2); XP is 2 per rep |
| ExerciseScreen.RunReward | src/screens/ExerciseScreen.tsx:255-257 | power is round(km * 10), energy is round(power / 2), XP is the steps |
| ExerciseScreen.TwoDecimals | src/screens/ExerciseScreen.tsx:262 | the saved distance is within 0.005 of the measured one |
| ExerciseScreen.SelectExerciseEffect | src/screens/ExerciseScreen.tsx:211-224 | switching between run and bodyweight while tracking is refused; otherwise the type is selected and reps are cleared unless a bodyweight workout is running |
| ExerciseScreen.SelectExercise | src/screens/ExerciseScreen.tsx:211-224 | choosing an exercise never starts or stops tracking; the selection becomes the chosen type or stays; a consistent screen stays consistent |
| ExerciseScreen.SwitchKeepsReps | src/screens/ExerciseScreen.tsx:223 | switching between bodyweight types mid-workout keeps the rep count |
| ExerciseScreen.ConsistentKept | src/screens/ExerciseScreen.tsx:205-336 | the screen never tracks a run and reps at once, and tracks reps only for a bodyweight type; every handler keeps this |
| ExerciseScreen.RecordRep | src/screens/ExerciseScreen.tsx:383 | one more rep, nothing else changes |
| ExerciseScreen.CanRecordRep | src/screens/ExerciseScreen.tsx:382-384 | Record Rep is enabled only while a workout is under way, and on a consistent screen only for a bodyweight type |
| ExerciseScreen.RecordedRepSaved | src/screens/ExerciseScreen.tsx:296-323 | a rep recorded through the enabled button keeps it enabled, and stopping then saves a record of every rep so far and ends the workout |
| ExerciseScreen.StartStop | src/screens/ExerciseScreen.tsx:226-336 | the selection is kept; a workout under way is ended; actions are dispatched only when a workout ends with a user, and the first saves the exercise for that user |
| ExerciseScreen.StopEndsWorkout | src/screens/ExerciseScreen.tsx:229-329 | stopping always ends the workout; something is dispatched exactly when there is a user and the workout is not empty |
| ExerciseScreen.StartBeginsWorkout | src/screens/ExerciseScreen.tsx:284-285 | starting dispatches nothing; a bodyweight workout starts at 0 reps; a run tracks exactly when permission is granted |
| ExerciseScreen.BodyweightSaved | src/screens/ExerciseScreen.tsx:296-323 | a saved bodyweight workout dispatches the record, round(reps / 2) energy and 2 XP per rep |
| ExerciseScreen.RunEnergyCreditedTwice | src/screens/ExerciseScreen.tsx:270-276 | a saved run credits its energy twice, once in the thunk and once in the screen, capped at maxEnergy, and adds the steps as XP |
| ExerciseScreen.Screen.constructor | src/screens/ExerciseScreen.tsx:205-208 | nothing selected, idle, no reps |
| ExerciseScreen.Screen.HandleSelectExercise | src/screens/ExerciseScreen.tsx:211-224 | in place, equal to SelectExercise |
| ExerciseScreen.Screen.HandleRecordRep | src/screens/ExerciseScreen.tsx:381-385 | in place, equal to RecordRep |
| ExerciseScreen.Screen.HandleStartStop | src/screens/ExerciseScreen.tsx:226-336 | the screen and the store change as StartStop says |
| DashboardScreen.RankLetter | src/screens/DashboardScreen.tsx:15 | the rank letter is D, C, B, A or S for tiers 0 to 4, clamped; S exactly at tier 4 and above; D exactly at tier 0 and below |
| DashboardScreen.RankMonotone | src/screens/DashboardScreen.tsx:15 | a higher tier never shows a lower rank, and tiers 0 to 4 show distinct ranks |
| DashboardScreen.SumCounts | src/screens/DashboardScreen.tsx:40 | records of other types count nothing: without a record of the type the sum is 0 |
| DashboardScreen.SumCountsAppend | src/screens/DashboardScreen.tsx:40 | the per-type sum distributes over concatenation |
| DashboardScreen.SumCountsNonNegative | src/screens/DashboardScreen.tsx:40 | non-negative counts give a non-negative sum |
| DashboardScreen.DailyProgress | src/screens/DashboardScreen.tsx:40 | the progress of each type is the sum of today's counts of that type |
| DashboardScreen.SavedWorkoutProgress | src/screens/DashboardScreen.tsx:40 | a saved workout adds its count to its type's progress, unless its id was already listed today |
| DashboardScreen.QuestsFromOrdered | src/screens/DashboardScreen.tsx:41 | quests come in the fixed order, each with its goal and current progress |
| DashboardScreen.QuestsFromComplete | src/screens/DashboardScreen.tsx:41 | there is a quest for a type exactly when its goal is positive |
| DashboardScreen.Quests | src/screens/DashboardScreen.tsx:41 | every quest carries its type's positive goal and today's progress, and no type has two quests |
| DashboardScreen.QuestsSpec | src/screens/DashboardScreen.tsx:41 | the quest list is ordered, carries goals and progress, and has a quest exactly for the positive goals |
| DashboardScreen.CompletedQuests | src/screens/DashboardScreen.tsx:42 | the count is between 0 and the number of quests; all are complete exactly at the maximum, none exactly at 0 |
| DashboardScreen.CompletedQuestsAppend | src/screens/DashboardScreen.tsx:42 | the count over a + b is the count over a plus the count over b |
| DashboardScreen.CompletedQuestsOne | src/screens/DashboardScreen.tsx:42 | one quest counts 1 exactly when current >= goal, else 0; with the append lemma, the count is the number of complete quests |
| DashboardScreen.NothingDoneNothingComplete | src/screens/DashboardScreen.tsx:40-42 | with no workouts today, no quest is complete |
| DashboardScreen.LevelProgressPercent | src/screens/DashboardScreen.tsx:45 | the bar is at most 100; it is 0 without a positive threshold, non-negative for non-negative XP, and full once XP reaches the threshold |
| DashboardScreen.RoundedPercentBounds | src/screens/DashboardScreen.tsx:45 | the rounded percentage is non-negative, and at least 100 once XP reaches the threshold |
| DashboardScreen.LevelProgressMonotone | src/screens/DashboardScreen.tsx:45 | more XP never shows less progress |
| DashboardScreen.ErrorMessage | src/screens/DashboardScreen.tsx:51 | the present messages joined by "; ": empty exactly when neither is present |
| DashboardScreen.IsLoading | src/screens/DashboardScreen.tsx:49 | the spinner test holds whenever the user is loading, and fails once a user is present and neither slice is loading |
| DashboardScreen.ErrorOnlyFromRejection | src/screens/DashboardScreen.tsx:50 | the isError test, from a state without an error, turns on after one action exactly when it is fetchUser's rejection or a setUser that sets the status to failed |
| DashboardScreen.ViewOf | src/screens/DashboardScreen.tsx:49-57 | spinner exactly while loading; error view exactly when not loading and a slice failed, showing the joined error text or 'Unknown error' when there is none; otherwise the panel exactly when the user has an id, and the not-loaded text when it has none |
| DashboardScreen.RejectedFetchShowsError | src/screens/DashboardScreen.tsx:49-54 | after a rejected fetchUser, the dashboard shows the rejection's message |
| DashboardScreen.Effects | src/screens/DashboardScreen.tsx:38 | the two loads never start together, and fetchUser starts only behind the spinner; when each load starts is stated by MountStartsLoads and TodayFetchStartsOnce |
| DashboardScreen.MountStartsLoads | src/screens/DashboardScreen.tsx:38 | on mount, with the initial store, the effect starts fetchUser; after fetchUser succeeds with a user id, it starts fetchTodayExercises and not fetchUser, and the panel is shown |
| DashboardScreen.TodayFetchStartsOnce | src/screens/DashboardScreen.tsx:38 | once today's fetch has settled, the effect does not start it again |
| ProfileScreen.EmptyProfileDefaults | src/screens/ProfileScreen.tsx:30 | a profile with no fields shows Hero, level 1, tier 0 (rank D), 0 XP, energy 0 of 100 and "Rookie" |
| ProfileScreen.Displayed | src/screens/ProfileScreen.tsx:30 | each of name, level, tier, experience, energy, maxEnergy and heroTitle is shown as it is when present; the rank letter always matches the tier shown, D when the tier is missing |
| ProfileScreen.StoreUserShownAsIs | src/screens/ProfileScreen.tsx:30 | the store's user shows its own values, with no default |
| ProfileScreen.ErrorText | src/screens/ProfileScreen.tsx:54 | the error shown is the message, or "Unknown error" |
| ProfileScreen.ViewAsWritten | src/screens/ProfileScreen.tsx:49-55 | as written, a user without an id always gets the spinner; a user with an id sees the profile exactly when loaded, and the error view with its message when failed |
| ProfileScreen.RejectedLoadHidden | src/screens/ProfileScreen.tsx:49-55 | as written, a rejected load shows the spinner and never the error |
| ProfileScreen.ProfileView | src/screens/ProfileScreen.tsx:49-55 | the error view appears exactly when the load failed; a loaded user with an id sees the profile, and only such a user; otherwise the same view as the code |
| ProfileScreen.RejectedLoadShown | src/screens/ProfileScreen.tsx:52-55 | with the failure tested first, a rejected load shows its message |
| ProfileScreen.SaveNameEffect | src/screens/ProfileScreen.tsx:47 | saving ends editing and dispatches exactly when the trimmed text is non-empty and new; blank text resets the field to the name |
| ProfileScreen.SaveName | src/screens/ProfileScreen.tsx:47 | editing always ends; at most one setUser is dispatched, with the trimmed text as a new name and every other field of the user kept |
| ProfileScreen.SaveNameRenames | src/screens/ProfileScreen.tsx:47 | a save changes only the name, to the trimmed text, or changes nothing |
| ProfileScreen.SaveTwiceNoOp | src/screens/ProfileScreen.tsx:36-47 | after a rename, once the field has followed the new name, saving again dispatches nothing |
| ProfileScreen.ProfileEditor.constructor | src/screens/ProfileScreen.tsx:33-34 | not editing; the field holds the name |
| ProfileScreen.ProfileEditor.HandleEditName | src/screens/ProfileScreen.tsx:45 | editing starts from the current name |
| ProfileScreen.ProfileEditor.HandleCancelEdit | src/screens/ProfileScreen.tsx:46 | editing stops and the field is reset to the name |
| ProfileScreen.ProfileEditor.HandleSaveName | src/screens/ProfileScreen.tsx:47 | the editor and the store change as SaveName says |
| ProfileScreen.ProfileEditor.OnNameChange | src/screens/ProfileScreen.tsx:36 | the field follows the store's name |

## Left out

- The run tracker `useRunTracker` (GPS, pedometer, distance by the haversine formula) is not part of this model. Its final distance and steps, and the permission answer, are inputs of `ExerciseScreen.StartStop`.
- Alerts, console logging, navigation, styles and images are not modelled. This includes `getCharacterImage` and the rank colours.
- Floating point is modelled with exact reals: the run distance, `toFixed(2)` and `Math.round` on a real. `ExerciseScreen.TwoDecimals` states only the rounding bound, not IEEE-754 behaviour.
- Strings compare by code point (`Text.LexLe`). JavaScript compares UTF-16 code units, which differ only outside the Basic Multilingual Plane.
- `calculateExpForNextLevel` (`Math.floor(100 * 1.2^(level - 1))`) is floating-point arithmetic. The threshold is a parameter of `DashboardScreen.LevelProgressPercent`.
- Asynchrony is not modelled. Each thunk runs to completion as one action, and the ordering of awaited calls against other dispatches is not captured.
- The mock thunks never reject, so the store never takes the `Failed` exercise status through an action. The rejected reducers are modelled and proved anyway.
- The battle store (`getBattleHistory`, `addBattleRecord`, `db.users.update`) is commented out in `src/utils/database.ts:144-152`, yet `src/screens/BattleScreen.tsx:21` imports it. As written, every boss load therefore fails into the catch at `src/screens/BattleScreen.tsx:61`, which sets an empty list, so no fight can start. The model keeps the battle records in a sequence, as if the store existed. That failing load is the case `historyReadable = false` of `BattleScreen.Screen.LoadBossData`, and whether each write succeeds is an input.
- The catalog is loaded from the boss table inside the effect; catalog entries are data, not logic.
- `BattleScreen.Damage` accepts the boss's weakness and ignores it, as the code does.
- Ids (`generateId`, `Date.now`), timestamps (`new Date().toISOString()`) and the counter-attack's `Math.random()` roll are inputs.
- JSON encoding and parsing are left out: storage holds parsed values.
- A JSON field with the wrong type, other than energy and maxEnergy, is not modelled.
- `ExerciseSlice.DayKey`: the reducer re-normalises a record's date with `new Date(date).toISOString()` before `split('T')[0]` (`src/features/exercise/exerciseSlice.ts:102`). The model takes the date part of the stored string as it is, which is the same for the canonical UTC stamps the app writes (`new Date().toISOString()`, `src/screens/ExerciseScreen.tsx:263,308`). A date with a time-zone offset, whose UTC day differs, and an unparsable date, for which `toISOString` throws a RangeError inside the reducer, are not modelled.
- The `count || 0` guard on NaN counts is not modelled: counts are reals, never NaN.
- `Database.LocalDatabase.ClearAllData`: the battle-history key it also removes is not part of this model, and its caught failure (which leaves some keys removed) is not modelled.
- `ExerciseScreen.Screen.HandleSelectExercise`: the clean-up branches at `src/screens/ExerciseScreen.tsx:217-221` are unreachable after the guard at line 213. The method omits them; the function `SelectExercise` keeps them.
- `ProfileScreen` defaults (title "Rookie", energy 0) differ from the user slice's initial state ("Beginner", 100). Both are modelled as written.

## Findings

| source | as written | input that shows it | evidently intended | confidence | as-written member | corrected member |
|---|---|---|---|---|---|---|
| src/features/user/userSlice.ts:86-89 | energy is clamped with `Math.min(energy, maxEnergy)` before maxEnergy is defaulted, and a missing energy becomes 100 whatever maxEnergy is | a payload with energy 50 and maxEnergy undefined gives energy NaN; a payload with energy undefined and maxEnergy 50 gives energy 100 above maxEnergy 50 | default maxEnergy first, then clamp energy (defaulted) to it, so 0 <= energy <= maxEnergy holds after every load | high, not executed | UserSlice.FetchedEnergyAsWrittenBreaksBound | UserSlice.FetchFulfilled |
| src/screens/ProfileScreen.tsx:49-55 | the spinner test (`!userId`) runs before the failure test, and `fetchUser.rejected` clears the id (src/features/user/userSlice.ts:91) | any rejected fetchUser: status failed, id "", so the spinner shows for good | test `status === 'failed'` first, as the dashboard does, so the error message appears | medium, not executed | ProfileScreen.RejectedLoadHidden | ProfileScreen.RejectedLoadShown |
