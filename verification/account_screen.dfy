/** The account screen (Example/components/screens/AccountScreen.tsx): the
    user patches it sends to the store for renaming, the simulated login and
    logout, and the logged-in test. */
module AccountScreen {
  import opened Wrappers
  import opened Text
  import opened Food
  import opened Fridge

  const LoginName: string := "Mario Rossi"
  const LoginEmail: string := "mario.rossi@gmail.com"

  /** `isLoggedIn`: the user exists and has an email. */
  predicate IsLoggedIn(user: Option<User>) {
    user.Some? && user.value.email.Some?
  }

  /** `handleSaveName`: no patch for a blank name, otherwise a patch holding
      only the trimmed name. */
  function SaveNamePatch(newName: string): (r: Option<UserPatch>)
    ensures r.None? <==> IsBlank(newName)
    ensures r.Some? ==> r.value.name == Some(Trim(newName)) && Trim(newName) != ""
    ensures r.Some? ==> r.value.id.None? && r.value.email.None? && r.value.fridgeId.None?
  {
    var name := Trim(newName);
    if name == "" then None else Some(UserPatch(None, Some(name), None, None))
  }

  /** The store after a save: unchanged for a blank name. */
  function SaveName(s: FridgeState, newName: string): (r: FridgeState)
    ensures IsBlank(newName) ==> r == s
    ensures s.user.None? ==> r.user.None?
    ensures !IsBlank(newName) && s.user.Some? ==>
      && r.user.Some? && r.user.value.name == Trim(newName)
      && r.user.value.id == s.user.value.id && r.user.value.email == s.user.value.email
      && r.user.value.fridgeId == s.user.value.fridgeId
    ensures r.items == s.items && r.settings == s.settings && r.currentTab == s.currentTab
  {
    match SaveNamePatch(newName)
    case None => s
    case Some(p) => UpdateUser(s, p)
  }

  /** Renaming leaves the `addedBy` of stored items alone, and the next item
      added carries the new name. */
  lemma RenameThenAdd(s: FridgeState, newName: string, food: NewFood, id: string, now: int)
    requires s.user.Some? && !IsBlank(newName)
    ensures var t := AddFoodItem(SaveName(s, newName), food, id, now);
      && t.items[..|s.items|] == s.items
      && t.items[|s.items|].addedBy == Trim(newName)
  {
  }

  /** `handleLogout`: default name, email explicitly undefined, a new id; the
      fridge id is not part of the patch. */
  function LogoutPatch(newId: string): (p: UserPatch)
    ensures p.name == Some(DefaultUserName) && p.email == Some(None) && p.id == Some(newId)
    ensures p.fridgeId.None?
  {
    UserPatch(Some(newId), Some(DefaultUserName), Some(None), None)
  }

  /** The patch the simulated login sends. */
  function LoginPatch(newId: string): (p: UserPatch)
    ensures p.name == Some(LoginName) && p.email == Some(Some(LoginEmail)) && p.id == Some(newId)
    ensures p.fridgeId.None?
  {
    UserPatch(Some(newId), Some(LoginName), Some(Some(LoginEmail)), None)
  }

  /** After logout nobody is logged in; a present user keeps the fridge id
      and gets the default name. */
  lemma LogoutEffect(s: FridgeState, newId: string)
    ensures var t := UpdateUser(s, LogoutPatch(newId));
      && !IsLoggedIn(t.user)
      && (s.user.Some? ==> t.user.Some? && t.user.value.fridgeId == s.user.value.fridgeId
                           && t.user.value.name == DefaultUserName && t.user.value.id == newId)
      && t.items == s.items
  {
  }

  /** Login logs in exactly when there is a user to merge into. */
  lemma LoginEffect(s: FridgeState, newId: string)
    ensures var t := UpdateUser(s, LoginPatch(newId));
      && (IsLoggedIn(t.user) <==> s.user.Some?)
      && (s.user.Some? ==> t.user.value.fridgeId == s.user.value.fridgeId)
  {
  }

  /** Logging in and then out leaves nobody logged in, with the fridge id
      unchanged. */
  lemma LoginThenLogout(s: FridgeState, id1: string, id2: string)
    requires s.user.Some?
    ensures var t := UpdateUser(UpdateUser(s, LoginPatch(id1)), LogoutPatch(id2));
      && !IsLoggedIn(t.user) && t.user.value.fridgeId == s.user.value.fridgeId
  {
  }
}
