/**
 * The recent-content list of the dashboard
 * (src/pages/dashboard/components/RecentContentHistory.jsx): the relative
 * time of an item, the single expanded item, and the content type a
 * regenerate request carries.
 */
module RecentContentHistory {
  import opened Wrappers
  import Text

  const HourMs := 60 * 60 * 1000
  const DayMs := 24 * HourMs

  /** `"<n> <unit>"`, with an `s` for more than one, then `" ago"`. */
  function Ago(n: nat, unit: string): string {
    Text.NatToString(n) + " " + unit + (if n > 1 then "s" else "") + " ago"
  }

  /**
   * `formatTimeAgo` for `diff = now - timestamp` milliseconds. `Math.floor` of a
   * quotient by a positive number is `/` on `int`, also for a timestamp in the
   * future.
   */
  function TimeAgo(diff: int): string {
    var hours, days := diff / HourMs, diff / DayMs;
    if days > 0 then Ago(days, "day")
    else if hours > 0 then Ago(hours, "hour")
    else "Just now"
  }

  /**
   * Less than an hour ago (or in the future) reads "Just now"; from one hour to
   * just under a day the text counts 1 to 23 whole hours; from one day on it
   * counts whole days.
   */
  lemma TimeAgoCases(diff: int)
    ensures diff < HourMs ==> TimeAgo(diff) == "Just now"
    ensures HourMs <= diff < DayMs ==>
      1 <= diff / HourMs <= 23 && TimeAgo(diff) == Ago(diff / HourMs, "hour")
    ensures DayMs <= diff ==> 1 <= diff / DayMs && TimeAgo(diff) == Ago(diff / DayMs, "day")
  {
    if diff < DayMs {
      assert diff / DayMs <= 0;
    }
    if diff < HourMs {
      assert diff / HourMs <= 0;
    }
  }

  /** The count's digits run up to the first space of the text. */
  lemma DigitsEndAtSpace(n: nat, unit: string)
    ensures ' ' in Ago(n, unit)
    ensures Text.FirstIndex(Ago(n, unit), ' ') == |Text.NatToString(n)|
    ensures Ago(n, unit)[..|Text.NatToString(n)|] == Text.NatToString(n)
  {
    var t, p := Ago(n, unit), Text.NatToString(n);
    assert t[|p|] == ' ';
    assert t[..|p|] == p;
    assert ' ' !in p;
  }

  /** Different counts of the same unit give different texts. */
  lemma AgoDistinguishes(a: nat, b: nat, unit: string)
    requires a > 0 && b > 0 && Ago(a, unit) == Ago(b, unit)
    ensures a == b
  {
    var t := Ago(a, unit);
    var pa, pb := Text.NatToString(a), Text.NatToString(b);
    DigitsEndAtSpace(a, unit);
    DigitsEndAtSpace(b, unit);
    assert pa == t[..Text.FirstIndex(t, ' ')] == pb;
    Text.NatToStringInjective(a, b);
  }

  // -------------------------------------------------------------- expansion

  /** `toggleExpanded`: the expanded item collapses, any other item replaces it. */
  function Toggle(expanded: Option<int>, id: int): Option<int> {
    if expanded == Some(id) then None else Some(id)
  }

  /**
   * After a toggle the only item that can be expanded is the toggled one, and
   * it is expanded exactly when it was not before; toggling it again returns
   * to the earlier state unless another item was open, which stays closed.
   */
  lemma ToggleSpec(expanded: Option<int>, id: int, other: int)
    ensures Toggle(expanded, id) == Some(other) <==> other == id && expanded != Some(id)
    ensures Toggle(Toggle(expanded, id), id) == if expanded.Some? && expanded != Some(id) then None else expanded
  {
  }

  /** The list's state. */
  class History {
    var expandedItem: Option<int>

    constructor()
      ensures expandedItem == None
    {
      expandedItem := None;
    }

    /** `toggleExpanded(itemId)`. */
    method ToggleExpanded(itemId: int)
      modifies this
      ensures expandedItem == Toggle(old(expandedItem), itemId)
    {
      expandedItem := if expandedItem == Some(itemId) then None else Some(itemId);
    }
  }

  // ------------------------------------------------------------ regenerate

  /** `item.type.toLowerCase().replace(' ', '-')`: only the first space becomes a hyphen. */
  function TypeSlug(itemType: string): string {
    Text.ReplaceFirst(Text.ToLower(itemType), ' ', '-')
  }

  /**
   * The slug is the lowercased type with its first space, if any, turned into
   * a hyphen; every later space is kept.
   */
  lemma TypeSlugSpec(itemType: string)
    ensures var lower := Text.ToLower(itemType);
      && (' ' !in lower ==> TypeSlug(itemType) == lower)
      && (' ' in lower ==>
            var i := Text.FirstIndex(lower, ' ');
            TypeSlug(itemType) == lower[..i] + "-" + lower[i + 1..])
  {
    Text.ReplaceFirstAt(Text.ToLower(itemType), ' ', '-');
  }
}
