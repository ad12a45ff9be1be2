/**
 * The sidebar's navigation item: when it is highlighted for the current
 * path, and what its badge shows.
 */
module NavItem {
  import opened Wrappers
  import Text

  /** `isActive`: the path is the item's target or lies below it. */
  predicate IsActive(pathname: string, to: string) {
    pathname == to || to + "/" <= pathname
  }

  /**
   * The badge: nothing while collapsed, without a count or with a count
   * that is not positive; otherwise the count, with anything above 99
   * written "99+".
   */
  function BadgeText(badge: Option<int>, collapsed: bool): Option<string> {
    if collapsed || badge.None? || badge.value <= 0 then None
    else if badge.value > 99 then Some("99+")
    else Some(Text.Decimal(badge.value))
  }

  /** An active item's target is a prefix of the path. */
  lemma ActiveIsPrefix(pathname: string, to: string)
    ensures IsActive(pathname, to) ==> to <= pathname
  {
    if to + "/" <= pathname {
      assert to <= to + "/";
    }
  }

  /** Every path below the target keeps the item highlighted. */
  lemma ActiveBelow(to: string, rest: string)
    ensures IsActive(to, to)
    ensures IsActive(to + "/" + rest, to)
  {
    assert (to + "/" + rest)[..|to + "/"|] == to + "/";
  }

  /**
   * A sibling path that merely starts with the target's text, such as
   * "/todosx" for "/todos", does not highlight the item.
   */
  lemma SiblingNotActive(to: string, suffix: string)
    requires suffix != [] && suffix[0] != '/'
    ensures !IsActive(to + suffix, to)
  {
    var p := to + suffix;
    assert p[|to|] == suffix[0];
    assert |p| != |to|;
  }

  /** The root item is active only on "/" itself and on paths starting "//". */
  lemma RootActive(pathname: string)
    ensures IsActive(pathname, "/") <==> pathname == "/" || "//" <= pathname
  {
  }

  /**
   * The badge is shown exactly when the sidebar is expanded and the count
   * is present and positive; it is "99+" above 99 and otherwise the count's
   * decimal text, at most three characters in every case.
   */
  lemma BadgeTextShape(badge: Option<int>, collapsed: bool)
    ensures var r := BadgeText(badge, collapsed);
      && (r.Some? <==> !collapsed && badge.Some? && badge.value > 0)
      && (r.Some? ==> 1 <= |r.value| <= 3)
      && (r.Some? && badge.value > 99 ==> r.value == "99+")
  {
    var r := BadgeText(badge, collapsed);
    if r.Some? && badge.value <= 99 {
      Text.DecimalLength(badge.value, 2);
    }
  }

  /** A count up to 99 is shown in digits that read back as the count. */
  lemma BadgeTextReadsBack(badge: int)
    requires 0 < badge <= 99
    ensures var r := BadgeText(Some(badge), false);
      && r.Some?
      && (forall i :: 0 <= i < |r.value| ==> '0' <= r.value[i] <= '9')
      && Text.DecimalValue(r.value) == badge
  {
    Text.DecimalRoundTrip(badge);
  }
}
