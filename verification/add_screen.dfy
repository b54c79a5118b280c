/** The add form (Example/components/screens/AddScreen.tsx): validation and
    normalisation on submit, quick-add suggestions, and the choice among the
    foods recognised in a photo. The date field holds `None` when empty and
    otherwise the chosen day as midnight UTC in milliseconds. */
module AddScreen {
  import opened Wrappers
  import opened Text
  import opened Food
  import opened Fridge
  import opened Dates

  /** The expiry used when the date field is left empty: 2099-12-31. */
  const DefaultExpiry: int := DateMs(2099, 12, 31)

  /** One food recognised in a photo; `confidence` lies in 0..1. */
  datatype RecognizedFood = RecognizedFood(name: string, category: string, confidence: real, suggestedExpiryDays: int)

  datatype Suggestion = Suggestion(name: string, category: string)

  /** The quick-add buttons. */
  const SuggestedFoods: seq<Suggestion> := [
    Suggestion("Latte", "Latticini"),
    Suggestion("Parmigiano", "Formaggi"),
    Suggestion("Pomodori", "Verdure"),
    Suggestion("Mele", "Frutta"),
    Suggestion("Yogurt", "Latticini"),
    Suggestion("Pane", "Panetteria")
  ]

  /** The form's state. */
  datatype AddForm = AddForm(foodName: string, category: string, expiryDate: Option<int>, recognized: seq<RecognizedFood>)

  datatype Submission = Rejected | Accepted(food: NewFood)

  /** Validation and normalisation of the form on submit. */
  function Validate(form: AddForm): (r: Submission)
    ensures r.Rejected? <==> IsBlank(form.foodName)
    ensures r.Accepted? ==> r.food.name == Trim(form.foodName) && r.food.name != ""
    ensures r.Accepted? ==> (r.food.category.None? <==> IsBlank(form.category))
    ensures r.Accepted? && r.food.category.Some? ==> r.food.category.value == Trim(form.category)
    ensures r.Accepted? && form.expiryDate.None? ==> r.food.expiryDate == DefaultExpiry
    ensures r.Accepted? && form.expiryDate.Some? ==> r.food.expiryDate == form.expiryDate.value
    ensures r.Accepted? ==> r.food.image.None?
  {
    if Trim(form.foodName) == "" then Rejected
    else
      var category := Trim(form.category);
      Accepted(NewFood(
        Trim(form.foodName),
        if category == "" then None else Some(category),
        form.expiryDate.GetOr(DefaultExpiry),
        None))
  }

  /** `handleSubmit`: the store and the form afterwards. A blank name changes
      neither; otherwise the item is added, the three fields are cleared and
      the fridge tab is shown. */
  function Submit(s: FridgeState, form: AddForm, id: string, now: int): (r: (FridgeState, AddForm))
    ensures IsBlank(form.foodName) ==> r == (s, form)
    ensures !IsBlank(form.foodName) ==>
      && r.0 == SetCurrentTab(AddFoodItem(s, Validate(form).food, id, now), Fridge)
      && r.1 == AddForm("", "", None, form.recognized)
  {
    match Validate(form)
    case Rejected => (s, form)
    case Accepted(food) =>
      (SetCurrentTab(AddFoodItem(s, food, id, now), Fridge), form.(foodName := "", category := "", expiryDate := None))
  }

  /** A successful submit appends exactly one item, holding the trimmed
      name, and moves to the fridge tab; nothing else in the store changes. */
  lemma SubmitAddsOne(s: FridgeState, form: AddForm, id: string, now: int)
    requires !IsBlank(form.foodName)
    ensures var t := Submit(s, form, id, now).0;
      && |t.items| == |s.items| + 1 && t.items[..|s.items|] == s.items
      && t.items[|s.items|].name == Trim(form.foodName)
      && t.items[|s.items|].id == id
      && t.currentTab == Fridge && t.user == s.user && t.settings == s.settings
  {
  }

  /** The sentinel date is day 47481 after the epoch, so an undated item is
      reported fresh until five days before the end of 2099. */
  lemma DefaultExpiryIsFarFuture(now: int)
    requires now < DefaultExpiry - 5 * MsPerDay
    ensures DefaultExpiry == 47481 * MsPerDay
    ensures GetExpiryStatus(DefaultExpiry, now) == Fresh
  {
  }

  /** `handleSuggestedFood`: only the name and the category change. */
  function ApplySuggestion(form: AddForm, food: Suggestion): (r: AddForm)
    ensures r.foodName == food.name && r.category == food.category
    ensures r.expiryDate == form.expiryDate && r.recognized == form.recognized
  {
    form.(foodName := food.name, category := food.category)
  }

  /** Submitting right after a quick-add adds that suggestion. */
  lemma SuggestionThenSubmit(s: FridgeState, form: AddForm, k: nat, id: string, now: int)
    requires k < |SuggestedFoods|
    ensures var sug := SuggestedFoods[k];
      var t := Submit(s, ApplySuggestion(form, sug), id, now).0;
      && |t.items| == |s.items| + 1
      && t.items[|s.items|].name == sug.name
      && t.items[|s.items|].category == Some(sug.category)
  {
    var sug := SuggestedFoods[k];
    assert Trimmed(sug.name) && Trimmed(sug.category);
    TrimOfTrimmed(sug.name);
    TrimOfTrimmed(sug.category);
  }

  /** Non-empty, with no white space at either end. */
  predicate Trimmed(s: string) {
    |s| > 0 && !IsSpace(s[0]) && !IsSpace(s[|s| - 1])
  }

  lemma TrimOfTrimmed(s: string)
    requires Trimmed(s)
    ensures Trim(s) == s && !IsBlank(s)
  {
    assert TrimStart(s) == s;
  }

  /** The date field a recognised food fills in: the UTC day `days` days
      from now. */
  function SuggestedDate(now: int, days: int): (r: int)
    ensures r % MsPerDay == 0
    ensures r <= now + days * MsPerDay < r + MsPerDay
  {
    ((now + days * MsPerDay) / MsPerDay) * MsPerDay
  }

  /** `foods[k]` has the highest confidence, and every earlier food a
      strictly lower one: the first of the most confident foods. */
  ghost predicate IsFirstBest(foods: seq<RecognizedFood>, k: int) {
    && 0 <= k < |foods|
    && (forall j :: 0 <= j < |foods| ==> foods[j].confidence <= foods[k].confidence)
    && (forall j :: 0 <= j < k ==> foods[j].confidence < foods[k].confidence)
  }

  /** The `reduce` of `handleImageAnalyzed` from position `k` on, `best`
      being the accumulator's index. */
  function BestFrom(foods: seq<RecognizedFood>, k: nat, best: nat): (r: nat)
    requires best < k <= |foods|
    requires forall j :: 0 <= j < k ==> foods[j].confidence <= foods[best].confidence
    requires forall j :: 0 <= j < best ==> foods[j].confidence < foods[best].confidence
    ensures IsFirstBest(foods, r)
    decreases |foods| - k
  {
    if k == |foods| then best
    else if foods[k].confidence > foods[best].confidence then BestFrom(foods, k + 1, k)
    else BestFrom(foods, k + 1, best)
  }

  /** The index the strict `>` reduce picks: the first food of maximal
      confidence. */
  function BestFood(foods: seq<RecognizedFood>): (r: nat)
    requires |foods| > 0
    ensures IsFirstBest(foods, r)
  {
    BestFrom(foods, 1, 0)
  }

  /** Only one index is the first best. */
  lemma FirstBestUnique(foods: seq<RecognizedFood>, a: int, b: int)
    requires IsFirstBest(foods, a) && IsFirstBest(foods, b)
    ensures a == b
  {
    assert foods[a].confidence <= foods[b].confidence && foods[b].confidence <= foods[a].confidence;
  }

  /** `handleImageAnalyzed`: store the list and, when it is not empty, fill
      the form from the most confident food. */
  function ImageAnalyzed(form: AddForm, foods: seq<RecognizedFood>, now: int): (r: AddForm)
    ensures r.recognized == foods
    ensures |foods| == 0 ==> r.foodName == form.foodName && r.category == form.category && r.expiryDate == form.expiryDate
    ensures |foods| > 0 ==> exists k :: (
      && IsFirstBest(foods, k)
      && r.foodName == foods[k].name && r.category == foods[k].category
      && r.expiryDate == Some(SuggestedDate(now, foods[k].suggestedExpiryDays)))
  {
    if |foods| == 0 then form.(recognized := foods)
    else
      var best := foods[BestFood(foods)];
      AddForm(best.name, best.category, Some(SuggestedDate(now, best.suggestedExpiryDays)), foods)
  }

  /** `selectRecognizedFood`: fill the form from `food` and clear the list. */
  function SelectRecognized(form: AddForm, food: RecognizedFood, now: int): (r: AddForm)
    ensures r.foodName == food.name && r.category == food.category
    ensures r.expiryDate == Some(SuggestedDate(now, food.suggestedExpiryDays))
    ensures r.recognized == []
  {
    AddForm(food.name, food.category, Some(SuggestedDate(now, food.suggestedExpiryDays)), [])
  }
}
