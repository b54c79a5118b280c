/** The fridge store (Example/hooks/useFridge.ts): the default state, the
    state transitions the screens dispatch, and the expiry arithmetic. Every
    transition is a pure `FridgeState -> FridgeState` function; the current
    time `now` and freshly generated ids are parameters. */
module Fridge {
  import opened Wrappers
  import opened Seqs
  import opened Food
  import opened Dates

  const DefaultUserName: string := "Utente"

  const DefaultSettings: AppSettings := AppSettings(It, Grid, 5)

  /** The state before anything is loaded: no items, the home tab, default
      settings and a user called "Utente" with the given generated ids. */
  function DefaultState(userId: string, fridgeId: string): (s: FridgeState)
    ensures s.items == [] && s.currentTab == Home
    ensures s.settings.language == It && s.settings.layout == Grid && s.settings.homeDaysFilter == 5
    ensures s.user.Some? && s.user.value.name == DefaultUserName && s.user.value.email.None?
    ensures s.user.value.id == userId && s.user.value.fridgeId == fridgeId
  {
    FridgeState([], Some(User(userId, DefaultUserName, None, fridgeId)), DefaultSettings, Home)
  }

  /** The state after the mount-time load. `saved` is the parsed blob, or
      `None` when nothing was stored or the blob failed to parse. */
  function Load(saved: Option<FridgeState>, userId: string, fridgeId: string): (s: FridgeState)
    ensures saved.Some? ==> s == saved.value
    ensures saved.None? ==> s.items == [] && s.currentTab == Home && s.settings == DefaultSettings
    ensures saved.None? ==> s.user == Some(User(userId, DefaultUserName, None, fridgeId))
  {
    match saved
    case Some(parsed) => parsed
    case None => DefaultState(userId, fridgeId)
  }

  /** The `addedBy` snapshot: the user's name when it is non-empty, else
      "Utente" (`state.user?.name || 'Utente'`). */
  function AddedByName(user: Option<User>): (r: string)
    ensures r != ""
    ensures user.Some? && user.value.name != "" ==> r == user.value.name
    ensures user.None? || user.value.name == "" ==> r == DefaultUserName
  {
    if user.Some? && user.value.name != "" then user.value.name else DefaultUserName
  }

  /** Appends the new item. */
  function AddFoodItem(s: FridgeState, food: NewFood, id: string, now: int): (r: FridgeState)
    ensures |r.items| == |s.items| + 1 && r.items[..|s.items|] == s.items
    ensures var item := r.items[|s.items|];
      && item.id == id && item.addedAt == now && item.addedBy == AddedByName(s.user)
      && item.name == food.name && item.category == food.category
      && item.expiryDate == food.expiryDate && item.image == food.image
    ensures r.user == s.user && r.settings == s.settings && r.currentTab == s.currentTab
  {
    var item := FoodItem(id, food.name, food.category, food.expiryDate, AddedByName(s.user), now, food.image);
    s.(items := s.items + [item])
  }

  /** No two items share an id. */
  ghost predicate UniqueIds(items: seq<FoodItem>) {
    forall i, j :: 0 <= i < j < |items| ==> items[i].id != items[j].id
  }

  predicate HasId(items: seq<FoodItem>, id: string) {
    exists i :: 0 <= i < |items| && items[i].id == id
  }

  /** The first item with the given id, if any. */
  function Find(items: seq<FoodItem>, id: string): (r: Option<FoodItem>)
    ensures r.Some? ==> r.value in items && r.value.id == id
    ensures r.None? <==> !HasId(items, id)
  {
    if |items| == 0 then None
    else if items[0].id == id then Some(items[0])
    else
      var r := Find(items[1..], id);
      assert HasId(items, id) ==> HasId(items[1..], id) by {
        if HasId(items, id) {
          var i :| 0 <= i < |items| && items[i].id == id;
          assert items[1..][i - 1].id == id;
        }
      }
      assert HasId(items[1..], id) ==> HasId(items, id) by {
        if HasId(items[1..], id) {
          var i :| 0 <= i < |items[1..]| && items[1..][i].id == id;
          assert items[i + 1].id == id;
        }
      }
      r
  }

  /** The filter predicate of `removeFoodItem`. */
  function IdDiffers(id: string): FoodItem -> bool {
    (item: FoodItem) => item.id != id
  }

  /** Drops every item whose id is `id`, keeping the order of the rest. */
  function RemoveFoodItem(s: FridgeState, id: string): (r: FridgeState)
    ensures forall x :: x in r.items <==> x in s.items && x.id != id
    ensures forall x :: multiset(r.items)[x] == if x.id != id then multiset(s.items)[x] else 0
    ensures IsSubsequence(r.items, s.items)
    ensures !HasId(r.items, id)
    ensures !HasId(s.items, id) ==> r == s
    ensures r.user == s.user && r.settings == s.settings && r.currentTab == s.currentTab
  {
    var r := s.(items := Filter(s.items, IdDiffers(id)));
    assert forall i :: 0 <= i < |r.items| ==> r.items[i].id != id by {
      forall i | 0 <= i < |r.items|
        ensures r.items[i].id != id
      {
        assert r.items[i] in r.items;
      }
    }
    if !HasId(s.items, id) then
      FilterKeepsAll(s.items, IdDiffers(id));
      r
    else r
  }

  /** `{ ...settings, ...patch }`. */
  function MergeSettings(a: AppSettings, p: SettingsPatch): (r: AppSettings)
    ensures r.language == p.language.GetOr(a.language)
    ensures r.layout == p.layout.GetOr(a.layout)
    ensures r.homeDaysFilter == p.homeDaysFilter.GetOr(a.homeDaysFilter)
  {
    AppSettings(
      p.language.GetOr(a.language),
      p.layout.GetOr(a.layout),
      p.homeDaysFilter.GetOr(a.homeDaysFilter))
  }

  /** Merges the patch into the settings; no value is range-checked. */
  function UpdateSettings(s: FridgeState, p: SettingsPatch): (r: FridgeState)
    ensures p.language.Some? ==> r.settings.language == p.language.value
    ensures p.language.None? ==> r.settings.language == s.settings.language
    ensures p.layout.Some? ==> r.settings.layout == p.layout.value
    ensures p.layout.None? ==> r.settings.layout == s.settings.layout
    ensures p.homeDaysFilter.Some? ==> r.settings.homeDaysFilter == p.homeDaysFilter.value
    ensures p.homeDaysFilter.None? ==> r.settings.homeDaysFilter == s.settings.homeDaysFilter
    ensures r.items == s.items && r.user == s.user && r.currentTab == s.currentTab
  {
    s.(settings := MergeSettings(s.settings, p))
  }

  function SetCurrentTab(s: FridgeState, tab: NavigationTab): (r: FridgeState)
    ensures r.currentTab == tab
    ensures r.items == s.items && r.user == s.user && r.settings == s.settings
  {
    s.(currentTab := tab)
  }

  /** `{ ...user, ...patch }`. */
  function MergeUser(u: User, p: UserPatch): (r: User)
    ensures r.id == p.id.GetOr(u.id)
    ensures r.name == p.name.GetOr(u.name)
    ensures r.email == p.email.GetOr(u.email)
    ensures r.fridgeId == p.fridgeId.GetOr(u.fridgeId)
  {
    User(p.id.GetOr(u.id), p.name.GetOr(u.name), p.email.GetOr(u.email), p.fridgeId.GetOr(u.fridgeId))
  }

  /** Merges the patch into a present user; a null user stays null. */
  function UpdateUser(s: FridgeState, p: UserPatch): (r: FridgeState)
    ensures s.user.None? ==> r.user.None?
    ensures s.user.Some? ==> r.user.Some?
    ensures s.user.Some? && p.name.Some? ==> r.user.value.name == p.name.value
    ensures s.user.Some? && p.name.None? ==> r.user.value.name == s.user.value.name
    ensures s.user.Some? && p.id.Some? ==> r.user.value.id == p.id.value
    ensures s.user.Some? && p.id.None? ==> r.user.value.id == s.user.value.id
    ensures s.user.Some? && p.email.Some? ==> r.user.value.email == p.email.value
    ensures s.user.Some? && p.email.None? ==> r.user.value.email == s.user.value.email
    ensures s.user.Some? && p.fridgeId.Some? ==> r.user.value.fridgeId == p.fridgeId.value
    ensures s.user.Some? && p.fridgeId.None? ==> r.user.value.fridgeId == s.user.value.fridgeId
    ensures r.items == s.items && r.settings == s.settings && r.currentTab == s.currentTab
  {
    match s.user
    case Some(u) => s.(user := Some(MergeUser(u, p)))
    case None => s
  }

  /** `Math.ceil(diff / MsPerDay)` for an integer number of milliseconds. */
  function DaysUntilExpiry(expiryDate: int, now: int): (days: int)
    ensures (days - 1) * MsPerDay < expiryDate - now <= days * MsPerDay
  {
    -((now - expiryDate) / MsPerDay)
  }

  datatype ExpiryStatus = Expired | Today | Urgent | Warning | Fresh

  /** The status bucket of an expiry date. The thresholds are fixed and do
      not depend on `homeDaysFilter`. */
  function GetExpiryStatus(expiryDate: int, now: int): (r: ExpiryStatus)
    ensures r == Expired <==> expiryDate - now <= -MsPerDay
    ensures r == Today <==> -MsPerDay < expiryDate - now <= 0
    ensures r == Urgent <==> 0 < expiryDate - now <= 2 * MsPerDay
    ensures r == Warning <==> 2 * MsPerDay < expiryDate - now <= 5 * MsPerDay
    ensures r == Fresh <==> 5 * MsPerDay < expiryDate - now
  {
    var days := DaysUntilExpiry(expiryDate, now);
    if days < 0 then Expired
    else if days == 0 then Today
    else if days <= 2 then Urgent
    else if days <= 5 then Warning
    else Fresh
  }

  /** Status buckets stated on the day count. */
  lemma StatusByDays(expiryDate: int, now: int)
    ensures var days := DaysUntilExpiry(expiryDate, now);
      && (GetExpiryStatus(expiryDate, now) == Expired <==> days < 0)
      && (GetExpiryStatus(expiryDate, now) == Today <==> days == 0)
      && (GetExpiryStatus(expiryDate, now) == Urgent <==> 1 <= days <= 2)
      && (GetExpiryStatus(expiryDate, now) == Warning <==> 3 <= days <= 5)
      && (GetExpiryStatus(expiryDate, now) == Fresh <==> days > 5)
  {
  }

  /** The last instant the home view counts as "expiring soon". */
  function Cutoff(s: FridgeState, now: int): int {
    now + s.settings.homeDaysFilter * MsPerDay
  }

  /** The filter predicate of `getExpiringItems`. */
  function ExpiresBy(cutoff: int): FoodItem -> bool {
    (item: FoodItem) => item.expiryDate <= cutoff
  }

  /** The items expiring no later than `homeDaysFilter` days from now, in
      their stored order. */
  function ExpiringItems(s: FridgeState, now: int): (r: seq<FoodItem>)
    ensures forall x :: x in r <==> x in s.items && x.expiryDate <= now + s.settings.homeDaysFilter * MsPerDay
    ensures forall x :: multiset(r)[x] ==
                          if x.expiryDate <= now + s.settings.homeDaysFilter * MsPerDay then multiset(s.items)[x] else 0
    ensures IsSubsequence(r, s.items)
  {
    Filter(s.items, ExpiresBy(Cutoff(s, now)))
  }

  /** An item is expiring exactly when its day count is within the filter. */
  lemma ExpiringByDays(s: FridgeState, now: int, x: FoodItem)
    ensures x in ExpiringItems(s, now)
        <==> x in s.items && DaysUntilExpiry(x.expiryDate, now) <= s.settings.homeDaysFilter
  {
    var d := DaysUntilExpiry(x.expiryDate, now);
    var k := s.settings.homeDaysFilter;
    assert d <= k ==> d * 86400000 <= k * 86400000;
    assert d > k ==> (d - 1) * 86400000 >= k * 86400000;
    assert x.expiryDate <= Cutoff(s, now) <==> d <= k;
  }

  /** Raising `homeDaysFilter` never removes an item from the expiring list. */
  lemma ExpiringMonotone(s: FridgeState, t: FridgeState, now: int)
    requires s.items == t.items
    requires s.settings.homeDaysFilter <= t.settings.homeDaysFilter
    ensures IsSubsequence(ExpiringItems(s, now), ExpiringItems(t, now))
  {
    assert Cutoff(s, now) <= Cutoff(t, now);
    FilterMonotone(s.items, ExpiresBy(Cutoff(s, now)), ExpiresBy(Cutoff(t, now)));
  }

  /** Removing an id twice is removing it once. */
  lemma RemoveIdempotent(s: FridgeState, id: string)
    ensures RemoveFoodItem(RemoveFoodItem(s, id), id) == RemoveFoodItem(s, id)
  {
  }

  /** Adding an item under a fresh id and removing that id restores the
      state. */
  lemma RemoveUndoesAdd(s: FridgeState, food: NewFood, id: string, now: int)
    requires !HasId(s.items, id)
    ensures RemoveFoodItem(AddFoodItem(s, food, id, now), id) == s
  {
    var a := AddFoodItem(s, food, id, now);
    var item := a.items[|s.items|];
    assert a.items == s.items + [item];
    FilterAppend(s.items, [item], IdDiffers(id));
    FilterKeepsAll(s.items, IdDiffers(id));
  }

  /** Looking up the id of an item just added under a fresh id finds that
      item, whether or not the earlier items share ids among themselves. */
  lemma AddThenFind(s: FridgeState, food: NewFood, id: string, now: int)
    requires !HasId(s.items, id)
    ensures Find(AddFoodItem(s, food, id, now).items, id)
         == Some(FoodItem(id, food.name, food.category, food.expiryDate, AddedByName(s.user), now, food.image))
  {
  }

  /** Adding under a fresh id keeps ids unique. */
  lemma AddKeepsUnique(s: FridgeState, food: NewFood, id: string, now: int)
    requires UniqueIds(s.items) && !HasId(s.items, id)
    ensures UniqueIds(AddFoodItem(s, food, id, now).items)
  {
  }

  /** Removing keeps ids unique. */
  lemma {:induction false} FilterKeepsUnique(items: seq<FoodItem>, p: FoodItem -> bool)
    requires UniqueIds(items)
    ensures UniqueIds(Filter(items, p))
  {
    if |items| > 0 {
      FilterKeepsUnique(items[1..], p);
      var rest := Filter(items[1..], p);
      if p(items[0]) {
        var r := [items[0]] + rest;
        forall j | 0 < j < |r|
          ensures r[0].id != r[j].id
        {
          assert r[j] in rest;
          var k :| 0 <= k < |items[1..]| && items[1..][k] == r[j];
          assert items[k + 1] == r[j];
        }
      }
    }
  }

  lemma RemoveKeepsUnique(s: FridgeState, id: string)
    requires UniqueIds(s.items)
    ensures UniqueIds(RemoveFoodItem(s, id).items)
  {
    FilterKeepsUnique(s.items, IdDiffers(id));
  }

  /** Sequential settings updates compose: the later patch wins field by
      field. */
  function ThenSettings(p: SettingsPatch, q: SettingsPatch): SettingsPatch {
    SettingsPatch(
      if q.language.Some? then q.language else p.language,
      if q.layout.Some? then q.layout else p.layout,
      if q.homeDaysFilter.Some? then q.homeDaysFilter else p.homeDaysFilter)
  }

  lemma UpdateSettingsCompose(s: FridgeState, p: SettingsPatch, q: SettingsPatch)
    ensures UpdateSettings(UpdateSettings(s, p), q) == UpdateSettings(s, ThenSettings(p, q))
  {
  }

  /** Applying the same settings patch twice is applying it once; the empty
      patch changes nothing. */
  lemma UpdateSettingsIdempotent(s: FridgeState, p: SettingsPatch)
    ensures UpdateSettings(UpdateSettings(s, p), p) == UpdateSettings(s, p)
    ensures UpdateSettings(s, SettingsPatch(None, None, None)) == s
  {
  }

  /** Applying the same user patch twice is applying it once. */
  lemma UpdateUserIdempotent(s: FridgeState, p: UserPatch)
    ensures UpdateUser(UpdateUser(s, p), p) == UpdateUser(s, p)
    ensures UpdateUser(s, UserPatch(None, None, None, None)) == s
  {
  }

  /** Worked dates, with "now" at midnight UTC of 2024-06-10: the five
      status buckets, and the 5-day cutoff of the expiring list. */
  lemma BoundaryExamples(s: FridgeState, a: FoodItem, b: FoodItem)
    requires s.settings.homeDaysFilter == 5 && s.items == [a, b]
    requires a.expiryDate == DateMs(2024, 6, 15) && b.expiryDate == DateMs(2024, 6, 16)
    ensures var now := DateMs(2024, 6, 10);
      && GetExpiryStatus(DateMs(2024, 6, 9), now) == Expired
      && GetExpiryStatus(DateMs(2024, 6, 10), now) == Today
      && GetExpiryStatus(DateMs(2024, 6, 12), now) == Urgent
      && GetExpiryStatus(DateMs(2024, 6, 15), now) == Warning
      && GetExpiryStatus(DateMs(2024, 6, 16), now) == Fresh
      && a in ExpiringItems(s, now) && b !in ExpiringItems(s, now)
  {
    assert DateMs(2024, 6, 10) == 19884 * MsPerDay;
  }
}
