/** The user slice of the Redux store: the hero's profile and the energy
    ledger (src/features/user/userSlice.ts). Each reducer is a function from
    the old slice state to the new one; `Store.AppStore` performs them in
    place on its fields. */
module UserSlice {
  import opened Common

  datatype Avatar = Avatar(costume: string, color: string)

  /** The user slice state (`UserState`). */
  datatype User = User(
    id: string, name: string, level: int, tier: int, experience: int,
    energy: int, maxEnergy: int, heroTitle: string, avatar: Avatar,
    createdAt: string, lastLogin: string, status: Status, error: Option<string>)

  /** `initialState` of the slice. */
  const InitialUser := User("", "Hero", 1, 0, 0, 100, 100, "Beginner", Avatar("basic", "blue"),
                            "", "", Idle, None)

  /** The ledger invariant: energy lies in [0, maxEnergy]. */
  ghost predicate EnergyInRange(u: User) {
    0 <= u.energy <= u.maxEnergy
  }

  /** A `Partial<UserState>` payload: None marks a key that is not present. */
  datatype UserPatch = UserPatch(
    id: Option<string>, name: Option<string>, level: Option<int>, tier: Option<int>,
    experience: Option<int>, energy: Option<int>, maxEnergy: Option<int>,
    heroTitle: Option<string>, avatar: Option<Avatar>, createdAt: Option<string>,
    lastLogin: Option<string>, status: Option<Status>, error: Option<Option<string>>)

  /** The patch that carries every field of u (`{ ...userData }`). */
  function FullPatch(u: User): UserPatch {
    UserPatch(Some(u.id), Some(u.name), Some(u.level), Some(u.tier), Some(u.experience),
              Some(u.energy), Some(u.maxEnergy), Some(u.heroTitle), Some(u.avatar),
              Some(u.createdAt), Some(u.lastLogin), Some(u.status), Some(u.error))
  }

  /** `Object.assign(state, patch)`: present keys overwrite, absent keys keep. */
  function Assign(u: User, p: UserPatch): User {
    User(p.id.GetOr(u.id), p.name.GetOr(u.name), p.level.GetOr(u.level), p.tier.GetOr(u.tier),
         p.experience.GetOr(u.experience), p.energy.GetOr(u.energy), p.maxEnergy.GetOr(u.maxEnergy),
         p.heroTitle.GetOr(u.heroTitle), p.avatar.GetOr(u.avatar), p.createdAt.GetOr(u.createdAt),
         p.lastLogin.GetOr(u.lastLogin), p.status.GetOr(u.status), p.error.GetOr(u.error))
  }

  /** `setUser`: merge the payload, then clamp energy to maxEnergy from above. */
  function SetUser(u: User, p: UserPatch): (r: User)
    ensures r == Assign(u, p).(energy := r.energy)
    ensures r.energy <= r.maxEnergy && r.energy <= Assign(u, p).energy
    ensures r.energy == Assign(u, p).energy || r.energy == r.maxEnergy
  {
    var m := Assign(u, p);
    m.(energy := Min(m.energy, m.maxEnergy))
  }

  /** `incrementLevel`: one level up, ten more maximum energy, energy refilled. */
  function IncrementLevel(u: User): (r: User)
    ensures r.level == u.level + 1 && r.maxEnergy == u.maxEnergy + 10
    ensures r.energy == r.maxEnergy
    ensures r.(level := u.level, maxEnergy := u.maxEnergy, energy := u.energy) == u
  {
    u.(level := u.level + 1, maxEnergy := u.maxEnergy + 10, energy := u.maxEnergy + 10)
  }

  /** The title table of `incrementTier`; None where the reducer keeps the old title. */
  function TierTitle(tier: int): (t: Option<string>)
    ensures t.None? <==> tier <= 0
  {
    if tier == 1 then Some("Novice Hero")
    else if tier == 2 then Some("Rising Hero")
    else if tier == 3 then Some("Elite Hero")
    else if tier >= 4 then Some("One Punch Hero")
    else None
  }

  /** `incrementTier`: one tier up, fifty more maximum energy, energy refilled,
      title from the table (unchanged when the table has no entry). */
  function IncrementTier(u: User): (r: User)
    ensures r.tier == u.tier + 1 && r.maxEnergy == u.maxEnergy + 50
    ensures r.energy == r.maxEnergy
    ensures r.heroTitle == TierTitle(u.tier + 1).GetOr(u.heroTitle)
    ensures r.(tier := u.tier, maxEnergy := u.maxEnergy, energy := u.energy, heroTitle := u.heroTitle) == u
  {
    var t := u.tier + 1;
    var title := match TierTitle(t) case Some(s) => s case None => u.heroTitle;
    u.(tier := t, heroTitle := title, maxEnergy := u.maxEnergy + 50, energy := u.maxEnergy + 50)
  }

  /** `addExperience`: experience grows by exactly n; no cap, no level change. */
  function AddExperience(u: User, n: int): (r: User)
    ensures r.experience - u.experience == n
    ensures r.(experience := u.experience) == u
  {
    u.(experience := u.experience + n)
  }

  /** A `Partial<avatarCustomization>` payload. */
  datatype AvatarPatch = AvatarPatch(costume: Option<string>, color: Option<string>)

  /** `updateAvatar`: `{ ...avatarCustomization, ...payload }`. */
  function UpdateAvatar(u: User, p: AvatarPatch): (r: User)
    ensures p.costume.Some? ==> r.avatar.costume == p.costume.value
    ensures p.costume.None? ==> r.avatar.costume == u.avatar.costume
    ensures p.color.Some? ==> r.avatar.color == p.color.value
    ensures p.color.None? ==> r.avatar.color == u.avatar.color
    ensures r.(avatar := u.avatar) == u
  {
    u.(avatar := Avatar(p.costume.GetOr(u.avatar.costume), p.color.GetOr(u.avatar.color)))
  }

  /** Merging the same avatar patch twice is merging it once. */
  lemma UpdateAvatarIdempotent(u: User, p: AvatarPatch)
    ensures UpdateAvatar(UpdateAvatar(u, p), p) == UpdateAvatar(u, p)
  {
  }

  /** `updateLastLogin`, with the clock reading `now` an input. */
  function UpdateLastLogin(u: User, now: string): (r: User)
    ensures r.lastLogin == now && r.(lastLogin := u.lastLogin) == u
  {
    u.(lastLogin := now)
  }

  /** `addEnergy`: energy + n, cut off at maxEnergy. */
  function AddEnergy(u: User, n: int): (r: User)
    ensures r.energy <= u.maxEnergy && r.energy <= u.energy + n
    ensures r.energy == u.energy + n || r.energy == u.maxEnergy
    ensures r.(energy := u.energy) == u
  {
    u.(energy := Min(u.maxEnergy, u.energy + n))
  }

  /** `useEnergy`: energy - n, cut off at 0. */
  function UseEnergy(u: User, n: int): (r: User)
    ensures r.energy >= 0 && r.energy >= u.energy - n
    ensures r.energy == u.energy - n || r.energy == 0
    ensures r.(energy := u.energy) == u
  {
    u.(energy := Max(0, u.energy - n))
  }

  /** `fetchUser.pending`. */
  function FetchPending(u: User): (r: User)
    ensures r.status == Loading && r.error == None
    ensures r.(status := u.status, error := u.error) == u
  {
    u.(status := Loading, error := None)
  }

  /** A numeric field of a fetched profile: key absent, a number, or present but `undefined`. */
  datatype NumField = Absent | Num(n: int) | Undefined

  /** The fetched `UserData` (energy and maxEnergy are optional in that type). */
  datatype FetchedUser = FetchedUser(
    id: string, name: string, level: int, tier: int, experience: int,
    energy: NumField, maxEnergy: NumField, heroTitle: string, avatar: Avatar,
    createdAt: string, lastLogin: string)

  /** The profile `mockGetOrCreateUser` hands to the thunk; id and clock are inputs. */
  function MockFetchedUser(id: string, now: string): (f: FetchedUser)
    ensures f.energy == Num(100) && f.maxEnergy == Num(100) && f.tier == 0 && f.level == 1
  {
    FetchedUser(id, "Hero", 1, 0, 0, Num(100), Num(100), "Beginner", Avatar("basic", "blue"), now, now)
  }

  /** A JavaScript number as far as the load path needs one. */
  datatype JsNumber = Finite(n: int) | NaN

  /** A field after `Object.assign`: an absent key keeps the old (numeric) value. */
  function AfterAssign(f: NumField, old_: int): NumField {
    if f.Absent? then Num(old_) else f
  }

  /** maxEnergy after `fetchUser.fulfilled`: the assigned number, or 100. */
  function FetchedMaxEnergy(u: User, p: FetchedUser): (m: int)
    ensures p.maxEnergy.Num? ==> m == p.maxEnergy.n
    ensures p.maxEnergy.Absent? ==> m == u.maxEnergy
    ensures p.maxEnergy.Undefined? ==> m == 100
  {
    match AfterAssign(p.maxEnergy, u.maxEnergy)
    case Num(m) => m
    case _ => 100
  }

  /** energy after `fetchUser.fulfilled` AS WRITTEN: it is clamped with
      `Math.min` against maxEnergy before maxEnergy is defaulted, so an
      undefined maxEnergy gives NaN, and the default 100 is never clamped. */
  function FetchedEnergyAsWritten(u: User, p: FetchedUser): (e: JsNumber) {
    match AfterAssign(p.energy, u.energy)
    case Num(e) =>
      (match AfterAssign(p.maxEnergy, u.maxEnergy)
       case Num(m) => Finite(Min(e, m))
       case _ => NaN)
    case _ => Finite(100)
  }

  /** The load can leave energy not a number, or above maxEnergy. */
  lemma FetchedEnergyAsWrittenBreaksBound()
    ensures FetchedEnergyAsWritten(InitialUser, MockFetchedUser("u", "t").(energy := Num(50), maxEnergy := Undefined)) == NaN
    ensures var p := MockFetchedUser("u", "t").(energy := Undefined, maxEnergy := Num(50));
            FetchedEnergyAsWritten(InitialUser, p) == Finite(100) && FetchedMaxEnergy(InitialUser, p) == 50
  {
  }

  /** `fetchUser.fulfilled`, with energy clamped against the defaulted maxEnergy
      (the bound the normalisation evidently means to establish). */
  function FetchFulfilled(u: User, p: FetchedUser): (r: User)
    ensures r.status == Succeeded && r.error == u.error
    ensures r.maxEnergy == FetchedMaxEnergy(u, p)
    ensures r.energy <= r.maxEnergy
    ensures AfterAssign(p.energy, u.energy).Num? ==> r.energy == Min(AfterAssign(p.energy, u.energy).n, r.maxEnergy)
    ensures !AfterAssign(p.energy, u.energy).Num? ==> r.energy == Min(100, r.maxEnergy)
    ensures var w := FetchedEnergyAsWritten(u, p); w.Finite? && w.n <= r.maxEnergy ==> r.energy == w.n
    ensures r.id == p.id && r.name == p.name && r.level == p.level && r.tier == p.tier
    ensures r.experience == p.experience && r.heroTitle == p.heroTitle && r.avatar == p.avatar
    ensures r.createdAt == p.createdAt && r.lastLogin == p.lastLogin
  {
    var maxEnergy := FetchedMaxEnergy(u, p);
    var energy := match AfterAssign(p.energy, u.energy) case Num(e) => e case _ => 100;
    User(p.id, p.name, p.level, p.tier, p.experience, Min(energy, maxEnergy), maxEnergy,
         p.heroTitle, p.avatar, p.createdAt, p.lastLogin, Succeeded, u.error)
  }

  /** `fetchUser.rejected`: failed, the rejection message (or a default), id cleared. */
  function FetchRejected(u: User, message: Option<string>): (r: User)
    ensures r.status == Failed && r.id == ""
    ensures r.error.Some? && r.error.value != ""
    ensures message.Some? && message.value != "" ==> r.error == message
    ensures r.(status := u.status, error := u.error, id := u.id) == u
  {
    var m := if message.Some? && message.value != "" then message.value else "Failed to fetch user";
    u.(status := Failed, error := Some(m), id := "")
  }

  /** Each ledger reducer keeps energy within [0, maxEnergy] for non-negative amounts. */
  lemma {:induction false} LedgerKeepsEnergyInRange(u: User, n: int, p: AvatarPatch, now: string, m: Option<string>)
    requires EnergyInRange(u) && n >= 0
    ensures EnergyInRange(AddEnergy(u, n)) && EnergyInRange(UseEnergy(u, n))
    ensures EnergyInRange(IncrementLevel(u)) && EnergyInRange(IncrementTier(u))
    ensures EnergyInRange(AddExperience(u, n)) && EnergyInRange(FetchPending(u))
    ensures EnergyInRange(FetchRejected(u, m))
    ensures EnergyInRange(UpdateAvatar(u, p)) && EnergyInRange(UpdateLastLogin(u, now))
  {
  }

  /** Two credits of n are one credit of 2n: clamping at maxEnergy composes. */
  lemma AddEnergyTwice(u: User, a: int, b: int)
    requires u.energy <= u.maxEnergy && a >= 0 && b >= 0
    ensures AddEnergy(AddEnergy(u, a), b) == AddEnergy(u, a + b)
    ensures AddEnergy(AddEnergy(u, a), b) == AddEnergy(AddEnergy(u, b), a)
  {
  }
}
