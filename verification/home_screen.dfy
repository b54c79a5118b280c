/** The summary screen (Example/components/screens/HomeScreen.tsx): it splits
    the expiring items into expired, urgent and warning buckets by their day
    count, and shows an all-clear message when nothing is expiring. */
module HomeScreen {
  import opened Seqs
  import opened Text
  import opened Food
  import opened Fridge

  /** Bucket predicates: days < 0, 0 <= days <= 2, 2 < days <= `filterDays`. */
  function IsExpired(now: int): FoodItem -> bool {
    (item: FoodItem) => DaysUntilExpiry(item.expiryDate, now) < 0
  }

  function IsUrgent(now: int): FoodItem -> bool {
    (item: FoodItem) => 0 <= DaysUntilExpiry(item.expiryDate, now) <= 2
  }

  function IsWarning(now: int, filterDays: int): FoodItem -> bool {
    (item: FoodItem) => 2 < DaysUntilExpiry(item.expiryDate, now) <= filterDays
  }

  function ExpiredItems(expiring: seq<FoodItem>, now: int): (r: seq<FoodItem>)
    ensures forall x :: x in r <==> x in expiring && x.expiryDate - now <= -Dates.MsPerDay
    ensures forall x :: multiset(r)[x] == if IsExpired(now)(x) then multiset(expiring)[x] else 0
    ensures IsSubsequence(r, expiring)
  {
    BucketsInMs(now);
    Filter(expiring, IsExpired(now))
  }

  /** The urgent bucket also holds the items that expire today. */
  function UrgentItems(expiring: seq<FoodItem>, now: int): (r: seq<FoodItem>)
    ensures forall x :: x in r <==> x in expiring && -Dates.MsPerDay < x.expiryDate - now <= 2 * Dates.MsPerDay
    ensures forall x :: multiset(r)[x] == if IsUrgent(now)(x) then multiset(expiring)[x] else 0
    ensures IsSubsequence(r, expiring)
  {
    BucketsInMs(now);
    Filter(expiring, IsUrgent(now))
  }

  /** The warning bucket runs up to the `homeDaysFilter` setting, not up to
      the fixed five days of the status badge. */
  function WarningItems(expiring: seq<FoodItem>, settings: AppSettings, now: int): (r: seq<FoodItem>)
    ensures forall x :: x in r <==> x in expiring && 2 < DaysUntilExpiry(x.expiryDate, now) <= settings.homeDaysFilter
    ensures forall x :: x in r ==> 2 * Dates.MsPerDay < x.expiryDate - now
    ensures forall x :: multiset(r)[x] == if IsWarning(now, settings.homeDaysFilter)(x) then multiset(expiring)[x] else 0
    ensures IsSubsequence(r, expiring)
  {
    BucketsInMs(now);
    Filter(expiring, IsWarning(now, settings.homeDaysFilter))
  }

  /** The bucket predicates restated on the millisecond difference, derived
      from the badge statuses. */
  lemma BucketsInMs(now: int)
    ensures forall x: FoodItem :: DaysUntilExpiry(x.expiryDate, now) < 0 <==> x.expiryDate - now <= -Dates.MsPerDay
    ensures forall x: FoodItem :: 0 <= DaysUntilExpiry(x.expiryDate, now) <= 2 <==> -Dates.MsPerDay < x.expiryDate - now <= 2 * Dates.MsPerDay
    ensures forall x: FoodItem :: 2 < DaysUntilExpiry(x.expiryDate, now) ==> 2 * Dates.MsPerDay < x.expiryDate - now
  {
    forall x: FoodItem {
      StatusByDays(x.expiryDate, now);
    }
  }

  datatype HomeView =
    | AllClear(filterDays: int)
    | Summary(expired: seq<FoodItem>, urgent: seq<FoodItem>, warning: seq<FoodItem>)

  /** What the screen shows for the given expiring items. */
  function View(expiring: seq<FoodItem>, settings: AppSettings, now: int): (v: HomeView)
    ensures v.AllClear? <==> |expiring| == 0
    ensures v.AllClear? ==> v.filterDays == settings.homeDaysFilter
    ensures v.Summary? ==>
              && IsSubsequence(v.expired, expiring)
              && forall x :: multiset(v.expired)[x] == if IsExpired(now)(x) then multiset(expiring)[x] else 0
    ensures v.Summary? ==>
              && IsSubsequence(v.urgent, expiring)
              && forall x :: multiset(v.urgent)[x] == if IsUrgent(now)(x) then multiset(expiring)[x] else 0
    ensures v.Summary? ==>
              && IsSubsequence(v.warning, expiring)
              && forall x :: multiset(v.warning)[x] ==
                               if IsWarning(now, settings.homeDaysFilter)(x) then multiset(expiring)[x] else 0
  {
    if |expiring| == 0 then AllClear(settings.homeDaysFilter)
    else Summary(ExpiredItems(expiring, now), UrgentItems(expiring, now), WarningItems(expiring, settings, now))
  }

  /** No item is in two buckets. */
  lemma BucketsDisjoint(expiring: seq<FoodItem>, settings: AppSettings, now: int)
    ensures forall x :: !(x in ExpiredItems(expiring, now) && x in UrgentItems(expiring, now))
    ensures forall x :: !(x in ExpiredItems(expiring, now) && x in WarningItems(expiring, settings, now))
    ensures forall x :: !(x in UrgentItems(expiring, now) && x in WarningItems(expiring, settings, now))
  {
  }

  /** With nothing expiring, all three buckets are empty. */
  lemma EmptyExpiring(settings: AppSettings, now: int)
    ensures ExpiredItems([], now) == [] && UrgentItems([], now) == [] && WarningItems([], settings, now) == []
    ensures View([], settings, now) == AllClear(settings.homeDaysFilter)
  {
  }

  /** Every item of the store's expiring list lands in exactly one bucket,
      so the three counts add up to the number of expiring items. */
  lemma ExpiringSplitsIntoBuckets(s: FridgeState, now: int)
    ensures var e := ExpiringItems(s, now);
      forall x :: x in e ==>
        (x in ExpiredItems(e, now) || x in UrgentItems(e, now) || x in WarningItems(e, s.settings, now))
    ensures var e := ExpiringItems(s, now);
      |ExpiredItems(e, now)| + |UrgentItems(e, now)| + |WarningItems(e, s.settings, now)| == |e|
  {
    var e := ExpiringItems(s, now);
    forall x | x in e
      ensures DaysUntilExpiry(x.expiryDate, now) <= s.settings.homeDaysFilter
    {
      ExpiringByDays(s, now, x);
    }
    forall i | 0 <= i < |e|
      ensures IsExpired(now)(e[i]) || IsUrgent(now)(e[i]) || IsWarning(now, s.settings.homeDaysFilter)(e[i])
    {
      assert e[i] in e;
    }
    FilterPartition(e, IsExpired(now), IsUrgent(now), IsWarning(now, s.settings.homeDaysFilter));
  }

  /** How the buckets relate to the badge status: urgent items may be due
      today, and warning items past five days wear the "fresh" badge. */
  lemma BucketStatuses(expiring: seq<FoodItem>, settings: AppSettings, now: int, x: FoodItem)
    ensures x in ExpiredItems(expiring, now) ==> GetExpiryStatus(x.expiryDate, now) == Expired
    ensures x in UrgentItems(expiring, now) ==> GetExpiryStatus(x.expiryDate, now) in {Today, Urgent}
    ensures x in WarningItems(expiring, settings, now) ==> GetExpiryStatus(x.expiryDate, now) in {Warning, Fresh}
    ensures x in WarningItems(expiring, settings, now) && GetExpiryStatus(x.expiryDate, now) == Fresh
            ==> settings.homeDaysFilter > 5
  {
    StatusByDays(x.expiryDate, now);
  }

  /** The truthiness test of `filter(Boolean)` on strings. */
  function IsTruthy(s: string): bool {
    s != ""
  }

  /** The local `cn` helper: drop empty class names and join the rest with
      single spaces, in order. */
  function Cn(classes: seq<string>): (r: string)
    ensures r == "" <==> forall i :: 0 <= i < |classes| ==> classes[i] == ""
  {
    var kept := Filter(classes, IsTruthy);
    assert |kept| > 0 ==> kept[0] in kept;
    assert (exists i :: 0 <= i < |classes| && classes[i] != "") ==> |kept| > 0 by {
      if exists i :: 0 <= i < |classes| && classes[i] != "" {
        var i :| 0 <= i < |classes| && classes[i] != "";
        assert classes[i] in kept;
      }
    }
    Join(kept, " ")
  }

  /** `cn` with one more class: an empty class changes nothing, otherwise the
      class is appended after a single space (or alone). Class names may hold
      spaces themselves. */
  lemma CnSnoc(classes: seq<string>, c: string)
    ensures Cn(classes + [c]) == if c == "" then Cn(classes) else if Cn(classes) == "" then c else Cn(classes) + " " + c
  {
    var kept := Filter(classes, IsTruthy);
    FilterAppend(classes, [c], IsTruthy);
    assert Filter([c], IsTruthy) == if c == "" then [] else [c] by {
      assert [c][1..] == [];
    }
    assert |kept| == 0 <==> Cn(classes) == "" by {
      if |kept| > 0 {
        assert kept[0] in kept;
      } else {
        forall i | 0 <= i < |classes| ensures classes[i] == "" {
          assert classes[i] !in kept;
        }
      }
    }
    if c != "" {
      JoinSnoc(kept, " ", c);
    } else {
      assert kept + [] == kept;
    }
  }

  /** Two non-empty classes are joined with one space. */
  lemma CnPair(a: string, b: string)
    requires a != "" && b != ""
    ensures Cn([a, b]) == a + " " + b
  {
    assert [a, b] == [a] + [b];
    assert [a] == [] + [a];
    CnSnoc([], a);
    CnSnoc([a], b);
  }

  /** The class of the three bucket lists: two columns in the grid layout,
      one in the list layout. */
  lemma BucketListClasses(layout: Layout)
    ensures Cn(["grid gap-3", if layout == Grid then "grid-cols-2" else "grid-cols-1"])
         == if layout == Grid then "grid gap-3 grid-cols-2" else "grid gap-3 grid-cols-1"
  {
    CnPair("grid gap-3", if layout == Grid then "grid-cols-2" else "grid-cols-1");
  }
}
