/** The records of the application (Example/types/food.ts). Dates are
    milliseconds since the epoch; ids are opaque strings. */
module Food {
  import opened Wrappers

  /** A stored food item. `category` and `image` are optional. */
  datatype FoodItem = FoodItem(
    id: string,
    name: string,
    category: Option<string>,
    expiryDate: int,
    addedBy: string,
    addedAt: int,
    image: Option<string>)

  /** What a caller hands to `addFoodItem`: a food item without `id`,
      `addedAt` and `addedBy`, which the store assigns. */
  datatype NewFood = NewFood(
    name: string,
    category: Option<string>,
    expiryDate: int,
    image: Option<string>)

  /** The profile; a present `email` is what the account screen calls
      logged in. */
  datatype User = User(id: string, name: string, email: Option<string>, fridgeId: string)

  datatype Language = It | En

  datatype Layout = Grid | List

  /** `homeDaysFilter` is a plain number: nothing bounds it. */
  datatype AppSettings = AppSettings(language: Language, layout: Layout, homeDaysFilter: int)

  datatype NavigationTab = Home | Fridge | Add | Settings | Account

  /** The whole persisted aggregate. `user` may be null. */
  datatype FridgeState = FridgeState(
    items: seq<FoodItem>,
    user: Option<User>,
    settings: AppSettings,
    currentTab: NavigationTab)

  /** `Partial<AppSettings>`: a `None` field is a key absent from the object. */
  datatype SettingsPatch = SettingsPatch(
    language: Option<Language>,
    layout: Option<Layout>,
    homeDaysFilter: Option<int>)

  /** `Partial<User>`. `email` is doubly optional: `Some(None)` is a key that
      is present with the value `undefined`, which clears the email when
      spread over a user. */
  datatype UserPatch = UserPatch(
    id: Option<string>,
    name: Option<string>,
    email: Option<Option<string>>,
    fridgeId: Option<string>)

  const AllTabs: seq<NavigationTab> := [Home, Fridge, Add, Settings, Account]

  /** The navigation has exactly five distinct tabs. */
  lemma NavigationTabsAreFive()
    ensures forall t: NavigationTab :: t in AllTabs
    ensures |AllTabs| == 5
    ensures forall i, j :: 0 <= i < j < |AllTabs| ==> AllTabs[i] != AllTabs[j]
  {
    forall t: NavigationTab
      ensures t in AllTabs
    {
      match t
      case Home => assert AllTabs[0] == t;
      case Fridge => assert AllTabs[1] == t;
      case Add => assert AllTabs[2] == t;
      case Settings => assert AllTabs[3] == t;
      case Account => assert AllTabs[4] == t;
    }
  }
}
