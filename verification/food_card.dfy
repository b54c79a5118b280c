/** The item card (Example/components/FoodCard.tsx): badge colour and text
    for a status, the layout choice and the avatar initial. */
module FoodCard {
  import opened Wrappers
  import opened Text
  import opened Food
  import opened Fridge

  const ExpiredColor: string := "bg-danger-500 text-white"
  const TodayColor: string := "bg-danger-100 text-danger-700 border-danger-200"
  const UrgentColor: string := "bg-warning-100 text-warning-700 border-warning-200"
  const WarningColor: string := "bg-warning-50 text-warning-600 border-warning-100"
  const DefaultColor: string := "bg-fresh-50 text-fresh-600 border-fresh-100"

  /** `getStatusColor`: four statuses have their own classes, everything
      else (that is, "fresh") the default. */
  function StatusColor(status: ExpiryStatus): (r: string)
    ensures r == DefaultColor <==> status == Fresh
    ensures status == Expired ==> r == ExpiredColor
    ensures status == Today ==> r == TodayColor
    ensures status == Urgent ==> r == UrgentColor
    ensures status == Warning ==> r == WarningColor
  {
    match status
    case Expired => ExpiredColor
    case Today => TodayColor
    case Urgent => UrgentColor
    case Warning => WarningColor
    case Fresh => DefaultColor
  }

  /** Different statuses never share a colour. */
  lemma StatusColorInjective(a: ExpiryStatus, b: ExpiryStatus)
    ensures StatusColor(a) == StatusColor(b) ==> a == b
  {
  }

  function Abs(n: int): nat {
    if n < 0 then -n else n
  }

  const ExpiredPrefix: string := "Scaduto "
  const ExpiredSuffix: string := " giorni fa"
  const TodayText: string := "Scade oggi"
  const DaysSuffix: string := " giorni"

  /** `getStatusText`. */
  function StatusText(status: ExpiryStatus, days: int): (r: string)
    ensures status == Expired ==> r == ExpiredPrefix + NatToString(Abs(days)) + ExpiredSuffix
    ensures status == Today ==> r == TodayText
    ensures status != Expired && status != Today ==> r == IntToString(days) + DaysSuffix
  {
    match status
    case Expired => ExpiredPrefix + NatToString(Abs(days)) + ExpiredSuffix
    case Today => TodayText
    case _ => IntToString(days) + DaysSuffix
  }

  /** The expired text shows the magnitude of `days`: never a minus sign,
      and its number reads back as `|days|`. */
  lemma ExpiredTextShowsMagnitude(days: int)
    ensures var r := StatusText(Expired, days);
      && '-' !in r
      && |r| > |ExpiredPrefix| + |ExpiredSuffix|
      && ParseNat(r[|ExpiredPrefix|..|r| - |ExpiredSuffix|]) == Abs(days)
  {
    var digits := NatToString(Abs(days));
    var r := StatusText(Expired, days);
    assert r[|ExpiredPrefix|..|r| - |ExpiredSuffix|] == digits;
    assert '-' !in digits by {
      forall i | 0 <= i < |digits| ensures digits[i] != '-' { assert IsDigit(digits[i]); }
    }
    ParseNatToString(Abs(days));
  }

  /** The today text ignores `days`. */
  lemma TodayTextIgnoresDays(d1: int, d2: int)
    ensures StatusText(Today, d1) == StatusText(Today, d2) == TodayText
  {
  }

  /** The optional `layout` prop defaults to grid. */
  function EffectiveLayout(layout: Option<Layout>): (r: Layout)
    ensures layout.None? ==> r == Grid
    ensures layout.Some? ==> r == layout.value
  {
    layout.GetOr(Grid)
  }

  /** The avatar: the first character of the name, upper-cased; empty for an
      empty name (`charAt(0)` of "" is ""). */
  function Initial(name: string): (r: string)
    ensures |r| <= 1 && (|r| == 1 <==> name != "")
    ensures forall i :: 0 <= i < |r| ==> !('a' <= r[i] <= 'z')
    ensures |r| == 1 ==> LowerChar(r[0]) == LowerChar(name[0])
  {
    if name == "" then "" else [UpperChar(name[0])]
  }

  datatype CardView = CardView(list: bool, initial: string, badgeText: string, badgeColor: string)

  /** What the card renders for `item` at time `now`. */
  function Card(item: FoodItem, now: int, layout: Option<Layout>): (v: CardView)
    ensures v.list <==> layout == Some(List)
    ensures v.initial == Initial(item.name)
    ensures v.badgeColor == StatusColor(GetExpiryStatus(item.expiryDate, now))
    ensures v.badgeText == StatusText(GetExpiryStatus(item.expiryDate, now), DaysUntilExpiry(item.expiryDate, now))
    ensures v.badgeText == TodayText <==> GetExpiryStatus(item.expiryDate, now) == Today
    ensures item.expiryDate - now <= -Dates.MsPerDay
            <==> |v.badgeText| >= |ExpiredPrefix| && v.badgeText[..|ExpiredPrefix|] == ExpiredPrefix
  {
    var days := DaysUntilExpiry(item.expiryDate, now);
    var status := GetExpiryStatus(item.expiryDate, now);
    var text := StatusText(status, days);
    assert status != Expired && status != Today ==> text[0] == '-' || IsDigit(text[0]);
    assert status != Today ==> text != TodayText by {
      if status == Expired {
        assert text[7] == ' ' != TodayText[7];
      }
    }
    assert status == Expired <==> |text| >= |ExpiredPrefix| && text[..|ExpiredPrefix|] == ExpiredPrefix by {
      if status == Expired {
        assert text[..|ExpiredPrefix|] == ExpiredPrefix;
      } else if status == Today {
        assert text[7] != ExpiredPrefix[7];
      } else {
        assert text[0] != ExpiredPrefix[0];
      }
    }
    CardView(EffectiveLayout(layout) == List, Initial(item.name), text, StatusColor(status))
  }
}
