/** The header's language menu (components/ui/LanguageSwitcher.tsx): a
    drop-down flag and a path rewrite that swaps the locale segment. */
module LanguageSwitcher {
  import opened Types
  import I18n

  /** `pat` occurs in `s` starting at index `k`. */
  predicate OccursAt(s: string, pat: string, k: nat) {
    k + |pat| <= |s| && s[k..k + |pat|] == pat
  }

  /** The first index at which `pat` occurs in `s`, as JavaScript's
      `indexOf` finds it (an empty pattern occurs at 0). */
  function IndexOf(s: string, pat: string): (r: Option<nat>)
    ensures r.Some? ==> OccursAt(s, pat, r.value)
    ensures r.Some? ==> forall k: nat :: k < r.value ==> !OccursAt(s, pat, k)
    ensures r.None? ==> forall k: nat :: !OccursAt(s, pat, k)
    decreases |s|
  {
    if |pat| > |s| then
      None
    else if s[..|pat|] == pat then
      Some(0)
    else
      assert !OccursAt(s, pat, 0) by { assert s[0..|pat|] == s[..|pat|]; }
      var rest := IndexOf(s[1..], pat);
      forall k: nat | 1 <= k
        ensures OccursAt(s, pat, k) <==> OccursAt(s[1..], pat, k - 1)
      {
        if k + |pat| <= |s| {
          assert s[1..][k - 1..k - 1 + |pat|] == s[k..k + |pat|];
        }
      }
      match rest
      case None => None
      case Some(k) => Some(k + 1)
  }

  /** `String.prototype.replace` with a string pattern: only the first
      occurrence of `pat` is replaced; without one the string is unchanged. */
  function ReplaceFirst(s: string, pat: string, rep: string): (r: string)
    ensures IndexOf(s, pat).None? ==> r == s
    ensures IndexOf(s, pat).Some? ==>
      var k := IndexOf(s, pat).value;
      |r| == |s| - |pat| + |rep| && r[..k] == s[..k] && OccursAt(r, rep, k) && r[k + |rep|..] == s[k + |pat|..]
  {
    match IndexOf(s, pat)
    case None => s
    case Some(k) => s[..k] + rep + s[k + |pat|..]
  }

  /** The text before the first occurrence and the text after it are kept,
      and the occurrence itself becomes `rep`. */
  lemma ReplaceFirstSplits(s: string, pat: string, rep: string, k: nat)
    requires OccursAt(s, pat, k)
    requires forall j: nat :: j < k ==> !OccursAt(s, pat, j)
    ensures ReplaceFirst(s, pat, rep) == s[..k] + rep + s[k + |pat|..]
  {
  }

  /** Without an occurrence the path is unchanged. */
  lemma ReplaceFirstAbsent(s: string, pat: string, rep: string)
    requires forall k: nat :: !OccursAt(s, pat, k)
    ensures ReplaceFirst(s, pat, rep) == s
  {
  }

  /** Replacing a pattern by itself changes nothing. */
  lemma ReplaceFirstSelf(s: string, pat: string)
    ensures ReplaceFirst(s, pat, pat) == s
  {
    match IndexOf(s, pat)
    case None =>
    case Some(k) =>
      calc {
        s[..k] + pat + s[k + |pat|..];
        s[..k] + s[k..k + |pat|] + s[k + |pat|..];
        { assert s == s[..k] + s[k..k + |pat|] + s[k + |pat|..]; }
        s;
      }
  }

  /** The path the menu navigates to for `newLocale`: the first "/locale"
      becomes "/newLocale", and a path without one is kept. */
  function SwitchedPath(pathname: string, locale: string, newLocale: string): (r: string)
    ensures IndexOf(pathname, "/" + locale).None? ==> r == pathname
    ensures IndexOf(pathname, "/" + locale).Some? ==>
      var k := IndexOf(pathname, "/" + locale).value;
      OccursAt(r, "/" + newLocale, k) && r[..k] == pathname[..k]
      && r[k + |newLocale| + 1..] == pathname[k + |locale| + 1..]
  {
    ReplaceFirst(pathname, "/" + locale, "/" + newLocale)
  }

  /** Paths always carry the locale prefix, so the rewrite swaps exactly that
      prefix and keeps the rest of the path. */
  lemma SwitchedPathSwapsPrefix(locale: string, newLocale: string, rest: string)
    ensures SwitchedPath("/" + locale + rest, locale, newLocale) == "/" + newLocale + rest
  {
    var s := "/" + locale + rest;
    assert OccursAt(s, "/" + locale, 0);
    ReplaceFirstSplits(s, "/" + locale, "/" + newLocale, 0);
    assert s[|"/" + locale|..] == rest;
  }

  /** Choosing the locale already in use leaves the path as it is. */
  lemma SwitchToCurrentKeepsPath(pathname: string, locale: string)
    ensures SwitchedPath(pathname, locale, locale) == pathname
  {
    ReplaceFirstSelf(pathname, "/" + locale);
  }

  /** One entry of the drop-down: the locale it switches to, its caption and
      whether it is highlighted as the current one. */
  datatype MenuEntry = MenuEntry(target: string, caption: string, highlighted: bool)

  /** The entries shown: none while closed, otherwise Spanish then English. */
  function Menu(isOpen: bool, locale: string): (r: seq<MenuEntry>)
    ensures !isOpen <==> r == []
    ensures isOpen ==> |r| == |I18n.Locales|
    ensures isOpen ==> forall i :: 0 <= i < |r| ==> r[i].target == I18n.Locales[i]
    ensures isOpen ==> forall i :: 0 <= i < |r| ==> (r[i].highlighted <==> r[i].target == locale)
  {
    if isOpen then
      [MenuEntry("es", "\U{1F1EA}\U{1F1F8} Español", locale == "es"),
       MenuEntry("en", "\U{1F1FA}\U{1F1F8} English", locale == "en")]
    else
      []
  }

  /** With a supported current locale exactly one entry is highlighted. */
  lemma OneEntryHighlighted(locale: string)
    requires I18n.Supported(locale)
    ensures exists i :: 0 <= i < 2 && Menu(true, locale)[i].highlighted
    ensures forall i, j :: 0 <= i < j < 2 ==> !(Menu(true, locale)[i].highlighted && Menu(true, locale)[j].highlighted)
  {
    var m := Menu(true, locale);
    if locale == "es" {
      assert m[0].highlighted;
    } else {
      assert m[1].highlighted;
    }
  }

  /** The switcher component: the menu's open flag and the navigations it
      asked the router for (`router.push` is outside the model). */
  class Switcher {
    var isOpen: bool
    var pushed: seq<string>

    constructor ()
      ensures !isOpen && pushed == []
    {
      isOpen := false;
      pushed := [];
    }

    /** The header button flips the menu. */
    method Toggle()
      modifies this
      ensures isOpen == !old(isOpen) && pushed == old(pushed)
    {
      isOpen := !isOpen;
    }

    /** A menu entry navigates to the rewritten path and closes the menu.
        Only the two offered locales reach it. */
    method SwitchLanguage(locale: string, pathname: string, newLocale: string)
      requires I18n.Supported(newLocale)
      modifies this
      ensures !isOpen
      ensures pushed == old(pushed) + [SwitchedPath(pathname, locale, newLocale)]
    {
      var newPath := ReplaceFirst(pathname, "/" + locale, "/" + newLocale);
      pushed := pushed + [newPath];
      isOpen := false;
    }
  }
}
