/** The local store of src/utils/database.ts: the saved profile and the
    exercise history, each kept under its own storage key. Storage is two
    fields of a `LocalDatabase` object; whether a storage call fails, the
    generated ids and the clock are inputs. */
module Database {
  import opened Common
  import Text
  import opened UserSlice
  import opened ExerciseSlice

  /** A settled promise: its value, or the message of the error it throws. */
  datatype Result<T> = Ok(value: T) | Err(message: string)

  const UserError := "Failed to get or create user data."
  const SaveUserError := "Failed to save user data."
  const AddRecordError := "Failed to add exercise record."
  const ByDateError := "Failed to get exercises by date."
  const ByRangeError := "Failed to get exercises by date range."

  // ---------------------------------------------------------------- users

  /** `typeof x === 'number' ? x : 100`. */
  function NumberOr100(f: NumField): (r: NumField)
    ensures r.Num?
    ensures f.Num? ==> r == f
    ensures !f.Num? ==> r == Num(100)
  {
    if f.Num? then f else Num(100)
  }

  /** A loaded profile with energy and maxEnergy made numeric; every other
      stored field as stored. */
  function Normalized(u: FetchedUser): (r: FetchedUser)
    ensures r.energy.Num? && r.maxEnergy.Num?
    ensures u.energy.Num? ==> r.energy == u.energy
    ensures u.maxEnergy.Num? ==> r.maxEnergy == u.maxEnergy
    ensures !u.energy.Num? ==> r.energy == Num(100)
    ensures !u.maxEnergy.Num? ==> r.maxEnergy == Num(100)
    ensures r.(energy := u.energy, maxEnergy := u.maxEnergy) == u
  {
    u.(energy := NumberOr100(u.energy), maxEnergy := NumberOr100(u.maxEnergy))
  }

  /** Normalising twice is normalising once. */
  lemma NormalizedIdempotent(u: FetchedUser)
    ensures Normalized(Normalized(u)) == Normalized(u)
  {
  }

  /** The profile created when none is stored. */
  function NewUser(id: string, now: string): (r: FetchedUser)
    ensures Normalized(r) == r
    ensures r.energy == r.maxEnergy
  {
    FetchedUser(id, "Hero", 1, 0, 0, Num(100), Num(100), "Beginner", Avatar("basic", "blue"), now, now)
  }

  /** The defaults of a new profile: level 1, tier 0, no experience, full
      energy of 100, the title "Beginner". */
  lemma NewUserDefaults(id: string, now: string)
    ensures var u := NewUser(id, now);
            u.id == id && u.name == "Hero" && u.level == 1 && u.tier == 0 && u.experience == 0
            && u.energy == Num(100) && u.maxEnergy == Num(100) && u.heroTitle == "Beginner"
            && u.createdAt == now && u.lastLogin == now
  {
  }

  /** A profile that went through the load's normalisation is one on which the
      `fetchUser.fulfilled` clamp as written and the corrected clamp agree:
      both fields are numbers, so no NaN arises and the clamp is applied. */
  lemma LoadedProfileClampAgrees(current: User, stored: FetchedUser)
    ensures var p := Normalized(stored);
            FetchedEnergyAsWritten(current, p) == Finite(FetchFulfilled(current, p).energy)
  {
  }

  // -------------------------------------------------------------- queries

  /** The two history queries: one day by prefix, or an inclusive range of days. */
  datatype Query = Day(date: string) | Range(start: string, end: string)

  /** Whether a record belongs to the user and falls under the query: the date
      string starts with the day, or its part before 'T' lies between the
      bounds under string comparison. */
  predicate Matches(e: Exercise, userId: string, q: Query) {
    e.userId == Some(userId) &&
    match q
    case Day(date) => Text.StartsWith(e.date, date)
    case Range(start, end) => Text.LexLe(start, Text.DatePart(e.date)) && Text.LexLe(Text.DatePart(e.date), end)
  }

  /** `history.filter(...)`: the matching records, in history order. */
  function Filter(h: seq<Exercise>, userId: string, q: Query): (r: seq<Exercise>)
    ensures |r| <= |h|
    ensures forall i :: 0 <= i < |r| ==> Matches(r[i], userId, q)
    ensures forall e :: e in r <==> e in h && Matches(e, userId, q)
    decreases |h|
  {
    if h == [] then []
    else
      var rest := Filter(h[1..], userId, q);
      assert forall e :: e in h <==> e == h[0] || e in h[1..];
      if Matches(h[0], userId, q) then [h[0]] + rest else rest
  }

  /** Filtering distributes over concatenation: the query keeps history order. */
  lemma {:induction false} FilterAppend(xs: seq<Exercise>, ys: seq<Exercise>, userId: string, q: Query)
    ensures Filter(xs + ys, userId, q) == Filter(xs, userId, q) + Filter(ys, userId, q)
    decreases |xs|
  {
    if xs == [] {
      assert xs + ys == ys;
    } else {
      assert (xs + ys)[1..] == xs[1..] + ys;
      FilterAppend(xs[1..], ys, userId, q);
    }
  }

  /** A record saved with the timestamp `day + "T" + time` is returned, last,
      by the query for its day and by the range from that day to itself. */
  lemma RecordFoundByItsDay(h: seq<Exercise>, userId: string, d: ExerciseDraft, id: string, day: string, time: string)
    requires 'T' !in day && d.date == day + "T" + time
    ensures Filter(h + [Saved(d, id, userId)], userId, Day(day)) == Filter(h, userId, Day(day)) + [Saved(d, id, userId)]
    ensures Filter(h + [Saved(d, id, userId)], userId, Range(day, day)) == Filter(h, userId, Range(day, day)) + [Saved(d, id, userId)]
  {
    var e := Saved(d, id, userId);
    Text.DatePartOfStamp(day, time);
    Text.LexLeReflexive(day);
    FilterAppend(h, [e], userId, Day(day));
    FilterAppend(h, [e], userId, Range(day, day));
    assert [e][1..] == [];
  }

  /** On a record whose date part is as long as the day asked for (ISO dates
      against a `YYYY-MM-DD` day), the one-day range and the day prefix agree. */
  lemma RangeOfOneDay(e: Exercise, userId: string, day: string)
    requires |Text.DatePart(e.date)| == |day|
    ensures Matches(e, userId, Range(day, day)) <==> Matches(e, userId, Day(day))
  {
    var p := Text.DatePart(e.date);
    if Text.LexLe(day, p) && Text.LexLe(p, day) {
      Text.LexLeAntisymmetric(day, p);
    }
    if p == day {
      Text.LexLeReflexive(day);
    }
    if Text.StartsWith(e.date, day) {
      assert p == e.date[..|p|] == e.date[..|day|] == day;
    }
  }

  /** Over such a history, `getExercisesByDateRange(u, d, d)` returns what
      `getExercisesByDate(u, d)` returns. */
  lemma {:induction false} OneDayRangeIsDay(h: seq<Exercise>, userId: string, day: string)
    requires forall i :: 0 <= i < |h| ==> |Text.DatePart(h[i].date)| == |day|
    ensures Filter(h, userId, Range(day, day)) == Filter(h, userId, Day(day))
    decreases |h|
  {
    if h != [] {
      RangeOfOneDay(h[0], userId, day);
      OneDayRangeIsDay(h[1..], userId, day);
    }
  }

  /** A record saved with an id no other record has keeps the ids distinct. */
  lemma FreshIdKeepsIdsDistinct(h: seq<Exercise>, e: Exercise)
    requires DistinctIds(h) && !HasId(h, e.id)
    ensures DistinctIds(h + [e])
  {
  }

  // ---------------------------------------------------------------- store

  class LocalDatabase {
    /** The profile under the user key, already parsed. */
    var storedUser: Option<FetchedUser>
    /** The records under the exercise-history key, in the order saved. */
    var history: seq<Exercise>

    constructor ()
      ensures storedUser == None && history == []
    {
      storedUser, history := None, [];
    }

    /** `getOrCreateUser`: the stored profile, normalised; else a new profile,
        written back. A failing storage call rejects with one message. */
    method GetOrCreateUser(newId: string, now: string, storageFails: bool) returns (r: Result<FetchedUser>)
      modifies this
      ensures history == old(history)
      ensures storageFails ==> r == Err(UserError) && storedUser == old(storedUser)
      ensures !storageFails && old(storedUser).Some? ==>
                r == Ok(Normalized(old(storedUser).value)) && storedUser == old(storedUser)
      ensures !storageFails && old(storedUser).None? ==>
                r == Ok(NewUser(newId, now)) && storedUser == Some(NewUser(newId, now))
    {
      if storageFails {
        return Err(UserError);
      }
      if storedUser.Some? {
        var user := storedUser.value;
        user := user.(energy := if user.energy.Num? then user.energy else Num(100));
        user := user.(maxEnergy := if user.maxEnergy.Num? then user.maxEnergy else Num(100));
        return Ok(user);
      }
      var newUser := NewUser(newId, now);
      storedUser := Some(newUser);
      return Ok(newUser);
    }

    /** `saveUserData`: overwrite the stored profile. */
    method SaveUserData(u: FetchedUser, storageFails: bool) returns (r: Result<()>)
      modifies this
      ensures history == old(history)
      ensures storageFails ==> r == Err(SaveUserError) && storedUser == old(storedUser)
      ensures !storageFails ==> r == Ok(()) && storedUser == Some(u)
    {
      if storageFails {
        return Err(SaveUserError);
      }
      storedUser := Some(u);
      return Ok(());
    }

    /** `addExerciseRecord`: the nested exercise with a new id and the user id,
        pushed onto the end of the history. */
    method AddExerciseRecord(userId: string, exercise: ExerciseDraft, newId: string, storageFails: bool)
      returns (r: Result<Exercise>)
      modifies this
      ensures storedUser == old(storedUser)
      ensures storageFails ==> r == Err(AddRecordError) && history == old(history)
      ensures !storageFails ==> r == Ok(Saved(exercise, newId, userId)) && history == old(history) + [r.value]
    {
      if storageFails {
        return Err(AddRecordError);
      }
      var newRecord := Saved(exercise, newId, userId);
      history := history + [newRecord];
      return Ok(newRecord);
    }

    /** `getExercisesByDate`: the user's records whose date starts with `date`. */
    method GetExercisesByDate(userId: string, date: string, storageFails: bool) returns (r: Result<seq<Exercise>>)
      ensures storageFails ==> r == Err(ByDateError)
      ensures !storageFails ==> r.Ok? && forall e :: e in r.value <==> e in history && e.userId == Some(userId) && Text.StartsWith(e.date, date)
      ensures !storageFails ==> r == Ok(Filter(history, userId, Day(date)))
    {
      if storageFails {
        return Err(ByDateError);
      }
      return Ok(Filter(history, userId, Day(date)));
    }

    /** `getExercisesByDateRange`: the user's records whose day lies in [start, end]. */
    method GetExercisesByDateRange(userId: string, start: string, end: string, storageFails: bool)
      returns (r: Result<seq<Exercise>>)
      ensures storageFails ==> r == Err(ByRangeError)
      ensures !storageFails ==> r.Ok? && forall e :: e in r.value <==>
                (e in history && e.userId == Some(userId)
                 && Text.LexLe(start, Text.DatePart(e.date)) && Text.LexLe(Text.DatePart(e.date), end))
      ensures !storageFails ==> r == Ok(Filter(history, userId, Range(start, end)))
    {
      if storageFails {
        return Err(ByRangeError);
      }
      return Ok(Filter(history, userId, Range(start, end)));
    }

    /** `clearAllData`: both keys removed. */
    method ClearAllData()
      modifies this
      ensures storedUser == None && history == []
    {
      storedUser := None;
      history := [];
    }
  }
}
