/** The profile screen (src/screens/ProfileScreen.tsx): the values it shows
    for a possibly incomplete profile, which view it renders, and the name
    editor that saves a new name through `setUser`. */
module ProfileScreen {
  import opened Common
  import opened UserSlice
  import Text
  import Store
  import DashboardScreen

  // --------------------------------------------------------------- display

  /** What the screen shows about the hero. */
  datatype Shown = Shown(name: string, level: int, tier: int, experience: int, energy: int,
                         maxEnergy: int, heroTitle: string, rank: string)

  /** The destructuring defaults, applied to the fields a profile lacks
      (None), and the rank letter of the shown tier: a present field is shown
      as it is, and the rank always matches the tier shown. */
  function Displayed(p: UserPatch): (r: Shown)
    ensures p.name.Some? ==> r.name == p.name.value
    ensures p.level.Some? ==> r.level == p.level.value
    ensures p.tier.Some? ==> r.tier == p.tier.value
    ensures p.experience.Some? ==> r.experience == p.experience.value
    ensures p.energy.Some? ==> r.energy == p.energy.value
    ensures p.maxEnergy.Some? ==> r.maxEnergy == p.maxEnergy.value
    ensures p.heroTitle.Some? ==> r.heroTitle == p.heroTitle.value
    ensures r.rank == DashboardScreen.RankLetter(r.tier)
    ensures p.tier.None? ==> r.rank == "D"
  {
    var tier := p.tier.GetOr(0);
    Shown(p.name.GetOr("Hero"), p.level.GetOr(1), tier, p.experience.GetOr(0), p.energy.GetOr(0),
          p.maxEnergy.GetOr(100), p.heroTitle.GetOr("Rookie"), DashboardScreen.RankLetter(tier))
  }

  /** A profile without any field shows Hero, level 1, tier 0 (rank D), no
      experience, energy 0 of 100 and the title Rookie. */
  lemma EmptyProfileDefaults()
    ensures Displayed(UserPatch(None, None, None, None, None, None, None, None, None, None, None, None, None))
            == Shown("Hero", 1, 0, 0, 0, 100, "Rookie", "D")
  {
  }

  /** The store's user state has every field, so no default ever shows there. */
  lemma StoreUserShownAsIs(u: User)
    ensures Displayed(FullPatch(u)) == Shown(u.name, u.level, u.tier, u.experience, u.energy,
                                             u.maxEnergy, u.heroTitle, DashboardScreen.RankLetter(u.tier))
  {
  }

  // ------------------------------------------------------------ the views

  datatype View = Spinner | ErrorView(message: string) | Profile

  /** `userError || 'Unknown error'`. */
  function ErrorText(error: Option<string>): (m: string)
    ensures m != ""
    ensures error.Some? && error.value != "" ==> m == error.value
    ensures !(error.Some? && error.value != "") ==> m == "Unknown error"
  {
    if error.Some? && error.value != "" then error.value else "Unknown error"
  }

  /** The view as written: the spinner test (loading, idle, or no id) runs
      before the 'failed' test, so any user without an id shows the spinner. */
  function ViewAsWritten(u: User): (v: View)
    ensures u.id == "" ==> v == Spinner
    ensures v.ErrorView? ==> u.status == Failed && u.id != "" && v.message != ""
    ensures v.Profile? ==> u.status == Succeeded && u.id != ""
    ensures u.id != "" && u.status == Succeeded ==> v == Profile
    ensures u.id != "" && u.status == Failed ==> v == ErrorView(ErrorText(u.error))
  {
    if u.status == Loading || u.status == Idle || u.id == "" then Spinner
    else if u.status == Failed then ErrorView(ErrorText(u.error))
    else
      assert u.status == Succeeded;
      Profile
  }

  /** As written, a rejected load shows the spinner for good: the rejection
      clears the id, so the error view never appears. */
  lemma RejectedLoadHidden(u: User, message: Option<string>)
    ensures ViewAsWritten(FetchRejected(u, message)) == Spinner
  {
  }

  /** The view with the failure tested first, as the dashboard does. */
  function ProfileView(u: User): (v: View)
    ensures v.ErrorView? <==> u.status == Failed
    ensures v.Profile? ==> u.id != "" && u.status == Succeeded
    ensures u.status != Failed ==> v == ViewAsWritten(u)
    ensures u.id != "" && u.status == Succeeded ==> v == Profile
  {
    if u.status == Failed then ErrorView(ErrorText(u.error))
    else if u.status == Loading || u.status == Idle || u.id == "" then Spinner
    else
      assert u.status == Succeeded;
      Profile
  }

  /** A rejected load shows its message (or the default one). */
  lemma RejectedLoadShown(u: User, message: Option<string>)
    ensures ProfileView(FetchRejected(u, message)) == ErrorView(FetchRejected(u, message).error.value)
    ensures message.Some? && message.value != "" ==> ProfileView(FetchRejected(u, message)) == ErrorView(message.value)
  {
  }

  // ------------------------------------------------------------ name editor

  /** The editor's state hooks. */
  datatype Editing = Editing(isEditingName: bool, editableName: string)

  /** `handleEditName`: start editing from the current name. */
  function EditName(name: string): Editing {
    Editing(true, name)
  }

  /** `handleCancelEdit`: stop editing and restore the current name. */
  function CancelEdit(name: string): Editing {
    Editing(false, name)
  }

  /** `handleSaveName`: the new editor state and the actions dispatched.
      Editing always ends; at most one `setUser` is dispatched, renaming the
      user to the trimmed text and keeping every other field. */
  function SaveName(e: Editing, u: User): (r: (Editing, seq<Store.Action>))
    ensures !r.0.isEditingName
    ensures |r.1| <= 1
    ensures r.1 != [] ==> r.1[0] == Store.SetUser(FullPatch(u).(name := Some(Text.Trim(e.editableName))))
                          && Text.Trim(e.editableName) != u.name
  {
    var trimmed := Text.Trim(e.editableName);
    if trimmed != "" && trimmed != u.name then
      (e.(isEditingName := false), [Store.SetUser(FullPatch(u).(name := Some(trimmed)))])
    else if trimmed == "" then (Editing(false, u.name), [])
    else (e.(isEditingName := false), [])
  }

  /** Saving always ends editing; it dispatches exactly when the trimmed text is
      non-empty and differs from the name; a blank text (whitespace only) is
      refused and the field reset to the current name. */
  lemma SaveNameEffect(e: Editing, u: User)
    ensures var (r, acts) := SaveName(e, u);
            !r.isEditingName
            && (acts != [] <==> !Text.AllWhitespace(e.editableName) && Text.Trim(e.editableName) != u.name)
            && (Text.AllWhitespace(e.editableName) ==> r.editableName == u.name && acts == [])
            && (!Text.AllWhitespace(e.editableName) ==> r.editableName == e.editableName)
  {
    Text.TrimEmptyIff(e.editableName);
  }

  /** With energy within its maximum, a save changes the name to the trimmed
      text and nothing else about the user, or changes nothing. */
  lemma SaveNameRenames(st: Store.AppState, e: Editing)
    requires st.user.energy <= st.user.maxEnergy
    ensures var (_, acts) := SaveName(e, st.user);
            var t := Text.Trim(e.editableName);
            Store.ApplyAll(st, acts) == if t != "" && t != st.user.name then st.(user := st.user.(name := t)) else st
  {
    var (_, acts) := SaveName(e, st.user);
    if acts != [] {
      Store.ApplyAllSnoc(st, [], acts[0]);
      assert [] + [acts[0]] == acts;
    }
  }

  /** `useEffect(() => setEditableName(name), [name])`: the field follows the name. */
  function NameChanged(e: Editing, name: string): Editing {
    e.(editableName := name)
  }

  /** Once a new name is saved and the field has followed it, saving again
      dispatches nothing: trimming is idempotent. */
  lemma SaveTwiceNoOp(st: Store.AppState, e: Editing)
    requires st.user.energy <= st.user.maxEnergy
    requires Text.Trim(e.editableName) != "" && Text.Trim(e.editableName) != st.user.name
    ensures var (r, acts) := SaveName(e, st.user);
            var st1 := Store.ApplyAll(st, acts);
            SaveName(NameChanged(r, st1.user.name), st1.user).1 == []
  {
    SaveNameRenames(st, e);
    Text.TrimIdempotent(e.editableName);
  }

  /** The editor of the name field, changed in place by its handlers. */
  class ProfileEditor {
    var isEditingName: bool
    var editableName: string

    function State(): Editing
      reads this
    {
      Editing(isEditingName, editableName)
    }

    constructor (name: string)
      ensures State() == Editing(false, name)
    {
      isEditingName, editableName := false, name;
    }

    method HandleEditName(store: Store.AppStore)
      modifies this
      ensures State() == EditName(store.user.name)
    {
      editableName := store.user.name;
      isEditingName := true;
    }

    method HandleCancelEdit(store: Store.AppStore)
      modifies this
      ensures State() == CancelEdit(store.user.name)
    {
      isEditingName := false;
      editableName := store.user.name;
    }

    method HandleSaveName(store: Store.AppStore)
      modifies this, store
      ensures var (r, acts) := SaveName(old(State()), old(store.user));
              State() == r && store.State() == Store.ApplyAll(old(store.State()), acts)
    {
      var name := store.user.name;
      var trimmedName := Text.Trim(editableName);
      if trimmedName != "" && trimmedName != name {
        store.SetUser(FullPatch(store.user).(name := Some(trimmedName)));
      } else if trimmedName == "" {
        editableName := name;
      }
      isEditingName := false;
    }

    /** The effect that follows the store's name. */
    method OnNameChange(store: Store.AppStore)
      modifies this
      ensures State() == NameChanged(old(State()), store.user.name)
    {
      editableName := store.user.name;
    }
  }
}
