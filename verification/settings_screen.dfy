/** The settings screen (Example/components/screens/SettingsScreen.tsx): the
    one-field patches it sends, the offered `homeDaysFilter` values, and the
    copy/share actions for the fridge id. */
module SettingsScreen {
  import opened Wrappers
  import opened Text
  import opened Food
  import opened Fridge

  /** The values of the "days in Home" select, as the strings it yields. */
  const HomeDaysOptions: seq<string> := ["3", "5", "7", "14", "30"]

  /** What the user can do on the screen. */
  datatype SettingsAction =
    | ChangeLanguage(language: Language)
    | ChangeLayout(layout: Layout)
    | ChangeHomeDays(option: string)

  predicate Offered(a: SettingsAction) {
    a.ChangeHomeDays? ==> a.option in HomeDaysOptions
  }

  /** The options are decimal numerals whose values are 3, 5, 7, 14 and 30. */
  lemma OptionValues()
    ensures forall o :: o in HomeDaysOptions ==> forall i :: 0 <= i < |o| ==> IsDigit(o[i])
    ensures forall k :: 0 <= k < |HomeDaysOptions| ==> ParseNat(HomeDaysOptions[k]) == [3, 5, 7, 14, 30][k]
  {
    assert "14"[..1] == "1" && "30"[..1] == "3";
    assert ParseNat("14") == 14 && ParseNat("30") == 30;
  }

  /** The settings patch each action sends: exactly one field, the home days
      being `parseInt` of the chosen option. */
  function PatchFor(a: SettingsAction): (p: SettingsPatch)
    requires Offered(a)
    ensures a.ChangeLanguage? ==> p == SettingsPatch(Some(a.language), None, None)
    ensures a.ChangeLayout? ==> p == SettingsPatch(None, Some(a.layout), None)
    ensures a.ChangeHomeDays? ==> p.language.None? && p.layout.None? && p.homeDaysFilter.Some?
    ensures a.ChangeHomeDays? ==> p.homeDaysFilter == Some(ParseNat(a.option))
    ensures a.ChangeHomeDays? ==> p.homeDaysFilter.value in {3, 5, 7, 14, 30}
  {
    OptionValues();
    match a
    case ChangeLanguage(l) => SettingsPatch(Some(l), None, None)
    case ChangeLayout(l) => SettingsPatch(None, Some(l), None)
    case ChangeHomeDays(o) => SettingsPatch(None, None, Some(ParseNat(o)))
  }

  /** Every offered option is positive, so the screen keeps `homeDaysFilter`
      positive although the store itself checks nothing. */
  lemma ScreenKeepsFilterPositive(s: FridgeState, a: SettingsAction)
    requires Offered(a)
    requires s.settings.homeDaysFilter > 0
    ensures UpdateSettings(s, PatchFor(a)).settings.homeDaysFilter > 0
  {
  }

  /** The store accepts a non-positive filter from any other caller. */
  lemma StoreAcceptsNonPositive(s: FridgeState)
    ensures UpdateSettings(s, SettingsPatch(None, None, Some(-1))).settings.homeDaysFilter == -1
  {
  }

  /** `handleFridgeIdChange`: a patch with only the fridge id. */
  function FridgeIdPatch(newFridgeId: string): (p: UserPatch)
    ensures p.fridgeId == Some(newFridgeId)
    ensures p.id.None? && p.name.None? && p.email.None?
  {
    UserPatch(None, None, None, Some(newFridgeId))
  }

  const ShareTitle: string := "Muffa - Condividi Frigo"
  const SharePrefix: string := "Unisciti al mio frigo condiviso su Muffa! ID: "

  datatype ShareAction = NoAction | CopyToClipboard(text: string) | NativeShare(title: string, text: string)

  /** `!user?.fridgeId`: no user, or an empty fridge id. */
  predicate NoFridgeId(user: Option<User>) {
    user.None? || user.value.fridgeId == ""
  }

  /** `copyFridgeId`. */
  function CopyFridgeId(user: Option<User>): (r: ShareAction)
    ensures r.NoAction? <==> NoFridgeId(user)
    ensures !NoFridgeId(user) ==> r == CopyToClipboard(user.value.fridgeId)
  {
    if NoFridgeId(user) then NoAction else CopyToClipboard(user.value.fridgeId)
  }

  /** `shareFridgeId`: the native share sheet when there is one, otherwise
      the copy. */
  function ShareFridgeId(user: Option<User>, canShare: bool): (r: ShareAction)
    ensures r.NoAction? <==> NoFridgeId(user)
    ensures !NoFridgeId(user) && canShare ==> r == NativeShare(ShareTitle, SharePrefix + user.value.fridgeId)
    ensures !NoFridgeId(user) && !canShare ==> r == CopyToClipboard(user.value.fridgeId)
  {
    if NoFridgeId(user) then NoAction
    else if canShare then NativeShare(ShareTitle, SharePrefix + user.value.fridgeId)
    else CopyFridgeId(user)
  }

  /** Clearing the fridge-id field disables copy and share. */
  lemma ClearedIdDisablesSharing(s: FridgeState, canShare: bool)
    ensures var t := UpdateUser(s, FridgeIdPatch(""));
      && CopyFridgeId(t.user) == NoAction && ShareFridgeId(t.user, canShare) == NoAction
  {
  }
}
