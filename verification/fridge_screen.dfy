/** The inventory screen (Example/components/screens/FridgeScreen.tsx):
    case-insensitive search, the layout toggle and the item count label. */
module FridgeScreen {
  import opened Wrappers
  import opened Seqs
  import opened Text
  import opened Food
  import opened Fridge

  /** The query occurs, ignoring ASCII case, in `text`. */
  ghost predicate MatchesText(text: string, query: string) {
    exists i :: OccursAt(Lower(text), Lower(query), i)
  }

  /** The search predicate: a match in the name, or in a non-empty category. */
  function Matches(query: string): FoodItem -> bool {
    (item: FoodItem) =>
      || Includes(Lower(item.name), Lower(query))
      || (item.category.Some? && item.category.value != ""
          && Includes(Lower(item.category.value), Lower(query)))
  }

  /** `filteredItems`: the items the search keeps, in their order. */
  function FilteredItems(items: seq<FoodItem>, query: string): (r: seq<FoodItem>)
    ensures IsSubsequence(r, items)
    ensures forall x :: x in r <==>
      (x in items && (MatchesText(x.name, query) || (x.category.Some? && MatchesText(x.category.value, query))))
    ensures forall x :: x in r && x.category.None? ==> MatchesText(x.name, query)
    ensures forall x :: multiset(r)[x] == if Matches(query)(x) then multiset(items)[x] else 0
  {
    assert forall x: FoodItem ::
      (x.category.Some? && x.category.value == "" && MatchesText(x.category.value, query)) ==> MatchesText(x.name, query) by {
      forall x: FoodItem | x.category.Some? && x.category.value == "" && MatchesText(x.category.value, query)
        ensures MatchesText(x.name, query)
      {
        var i :| OccursAt(Lower(x.category.value), Lower(query), i);
        assert |query| == 0;
        assert OccursAt(Lower(x.name), Lower(query), 0);
      }
    }
    Filter(items, Matches(query))
  }

  /** The empty query keeps every item. */
  lemma EmptyQueryKeepsAll(items: seq<FoodItem>)
    ensures FilteredItems(items, "") == items
  {
    forall i | 0 <= i < |items|
      ensures Matches("")(items[i])
    {
      IncludesEmpty(Lower(items[i].name));
    }
    FilterKeepsAll(items, Matches(""));
  }

  function Opposite(layout: Layout): (r: Layout)
    ensures r != layout
  {
    if layout == Grid then List else Grid
  }

  /** `toggleLayout`: a patch that only sets the other layout. */
  function ToggleLayout(settings: AppSettings): (p: SettingsPatch)
    ensures p.language.None? && p.homeDaysFilter.None?
    ensures p.layout.Some? && p.layout.value != settings.layout
  {
    SettingsPatch(None, Some(Opposite(settings.layout)), None)
  }

  /** Toggling twice through the store restores the state. */
  lemma ToggleTwice(s: FridgeState)
    ensures var once := UpdateSettings(s, ToggleLayout(s.settings));
      UpdateSettings(once, ToggleLayout(once.settings)) == s
  {
  }

  /** The noun of the count line. */
  function CountNoun(count: nat): (r: string)
    ensures r == "alimento" <==> count == 1
    ensures r == "alimento" || r == "alimenti"
  {
    if count == 1 then "alimento" else "alimenti"
  }

  /** `{items.length} {noun} in totale`. */
  function CountLabel(count: nat): (r: string)
    ensures exists k :: CountSplitsAt(r, count, k)
  {
    var digits := NatToString(count);
    var r := digits + " " + CountNoun(count) + " in totale";
    assert r[..|digits|] == digits;
    ParseNatToString(count);
    assert CountSplitsAt(r, count, |digits|);
    r
  }

  /** `line` opens with `k` decimal digits, without leading zeros, that read
      back as `count`, followed by a space, the noun for `count` and
      " in totale". */
  predicate CountSplitsAt(line: string, count: nat, k: nat) {
    && 0 < k <= |line|
    && (k == 1 || line[0] != '0')
    && (forall i :: 0 <= i < k ==> IsDigit(line[i]))
    && ParseNat(line[..k]) == count
    && line[k..] == " " + CountNoun(count) + " in totale"
  }

  datatype FridgeView = EmptyFridge | NoResults(countLabel: string, query: string)
    | Results(countLabel: string, shown: seq<FoodItem>, layout: Layout)

  /** What the screen shows: an empty-fridge message, a no-results message,
      or the filtered items under the count of all items. */
  function View(items: seq<FoodItem>, settings: AppSettings, query: string): (v: FridgeView)
    ensures v.EmptyFridge? <==> |items| == 0
    ensures v.NoResults? <==> |items| > 0 && FilteredItems(items, query) == []
    ensures v.Results? ==> v.countLabel == CountLabel(|items|)
    ensures v.Results? ==> v.shown == FilteredItems(items, query) && v.layout == settings.layout
    ensures v.NoResults? ==> v.query == query && v.countLabel == CountLabel(|items|)
  {
    if |items| == 0 then EmptyFridge
    else
      var shown := FilteredItems(items, query);
      if |shown| == 0 then NoResults(CountLabel(|items|), query) else Results(CountLabel(|items|), shown, settings.layout)
  }
}
