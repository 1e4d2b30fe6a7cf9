/**
 * The navigation bar's state: which section is highlighted as the page
 * scrolls, whether the bar has its "scrolled" look, the mobile menu, and
 * the language toggle.
 */
module Header {
  import opened Wrappers

  /** The part of an element's bounding box the scan looks at, in whole units. */
  datatype Rect = Rect(top: int, bottom: int)

  /** The page as the scan sees it: element id to its bounding box. An id
      that is not a key stands for a missing element. */
  type Page = map<string, Rect>

  /** Scan order of the sections, which is also document order. */
  const Sections: seq<string> := ["hero", "about", "skills", "projects", "experience", "contact"]

  /** The keys of the navigation links; the hero section has no link. */
  const NavKeys: seq<string> := ["about", "skills", "projects", "experience", "contact"]

  /** A section is current when its box straddles this line below the viewport top. */
  const ActivationLine: int := 100

  /** The bar switches to its "scrolled" look strictly beyond this offset. */
  const ScrolledThreshold: int := 50

  /** The element id looked up for a section: the hero section is looked up
      under the empty id. */
  function ElementId(id: string): string
  {
    if id == "hero" then "" else id
  }

  predicate Straddles(r: Rect)
  {
    r.top <= ActivationLine && r.bottom >= ActivationLine
  }

  /** The element for section `id` exists and straddles the activation line. */
  predicate Matches(page: Page, id: string)
  {
    ElementId(id) in page && Straddles(page[ElementId(id)])
  }

  /** The position of the first id in `ids` whose element matches, if any. */
  function FirstMatch(page: Page, ids: seq<string>): (r: Option<nat>)
    ensures r.Some? ==> r.value < |ids| && Matches(page, ids[r.value])
    ensures r.Some? ==> forall j :: 0 <= j < r.value ==> !Matches(page, ids[j])
    ensures r.None? <==> forall j :: 0 <= j < |ids| ==> !Matches(page, ids[j])
  {
    if ids == [] then None
    else if Matches(page, ids[0]) then Some(0)
    else
      match FirstMatch(page, ids[1..])
      case None => None
      case Some(k) => Some(k + 1)
  }

  /** The active section after one run of the scroll handler: the first
      matching section, or the previous value when none matches. */
  function ScanActive(page: Page, prev: string): (r: string)
    ensures r == prev || r in Sections
  {
    match FirstMatch(page, Sections)
    case Some(k) => Sections[k]
    case None => prev
  }

  /** The scan selects section k exactly when k straddles the line and no
      earlier section does. */
  lemma ScanSelectsFirstMatch(page: Page, prev: string, k: nat)
    requires k < |Sections|
    requires Matches(page, Sections[k])
    requires forall j :: 0 <= j < k ==> !Matches(page, Sections[j])
    ensures ScanActive(page, prev) == Sections[k]
  {
  }

  /** When no section straddles the line the previous value is kept. */
  lemma ScanRetainsWhenNoneMatches(page: Page, prev: string)
    requires forall j :: 0 <= j < |Sections| ==> !Matches(page, Sections[j])
    ensures ScanActive(page, prev) == prev
  {
  }

  /** A section that is selected (and was not already active) straddles the
      line, and every earlier section does not. */
  lemma ScanResultStraddles(page: Page, prev: string, k: nat)
    requires k < |Sections|
    requires ScanActive(page, prev) == Sections[k] && prev != Sections[k]
    ensures Matches(page, Sections[k])
    ensures forall j :: 0 <= j < k ==> !Matches(page, Sections[j])
  {
  }

  /** Of two straddling sections the later one is never selected. */
  lemma EarlierSectionWins(page: Page, prev: string, i: nat, j: nat)
    requires i < j < |Sections|
    requires Matches(page, Sections[i]) && Matches(page, Sections[j])
    ensures ScanActive(page, prev) != Sections[j]
  {
  }

  /** A section whose element is missing is never newly selected; in
      particular the hero section needs an element with the empty id. */
  lemma MissingElementNeverSelected(page: Page, prev: string, k: nat)
    requires k < |Sections|
    requires ElementId(Sections[k]) !in page
    requires prev != Sections[k]
    ensures ScanActive(page, prev) != Sections[k]
  {
  }

  /** A browser's lookup of the empty id never finds an element, so on a
      real page the hero section is never newly selected by a scroll. */
  lemma HeroNeverNewlySelected(page: Page, prev: string)
    requires "" !in page
    ensures ScanActive(page, prev) == "hero" ==> prev == "hero"
  {
    if prev != "hero" {
      MissingElementNeverSelected(page, prev, 0);
    }
  }

  /** The scan never leaves the list of sections. */
  lemma ScanStaysInSections(page: Page, prev: string)
    requires prev in Sections
    ensures ScanActive(page, prev) in Sections
  {
  }

  /** Text direction of the document. */
  datatype Dir = Ltr | Rtl

  datatype Locale = Locale(language: string, dir: Dir)

  /** The language toggle: English becomes Arabic, anything else English,
      and the direction follows the new language. */
  function ToggleLanguage(current: string): (r: Locale)
    ensures r.language == "ar" <==> current == "en"
    ensures r.language == "en" <==> current != "en"
    ensures r.dir == Rtl <==> r.language == "ar"
  {
    var newLang := if current == "en" then "ar" else "en";
    Locale(newLang, if newLang == "ar" then Rtl else Ltr)
  }

  /** Starting from either supported language, two toggles restore it. */
  lemma ToggleLanguageTwice(current: string)
    requires current == "en" || current == "ar"
    ensures ToggleLanguage(ToggleLanguage(current).language).language == current
  {
  }

  /** The component state of the navigation bar. */
  class NavBar {
    var isMenuOpen: bool
    var scrolled: bool
    var activeSection: string

    /** Exactly one section is active, and it is one of the list. */
    ghost predicate Valid()
      reads this
    {
      activeSection in Sections
    }

    constructor ()
      ensures Valid()
      ensures !isMenuOpen && !scrolled && activeSection == "hero"
    {
      isMenuOpen, scrolled, activeSection := false, false, "hero";
    }

    /** One run of the scroll handler, given the scroll offset and the page layout. */
    method HandleScroll(scrollY: int, page: Page)
      requires Valid()
      modifies this
      ensures Valid()
      ensures scrolled <==> scrollY > ScrolledThreshold
      ensures activeSection == ScanActive(page, old(activeSection))
      ensures isMenuOpen == old(isMenuOpen)
    {
      scrolled := scrollY > ScrolledThreshold;
      activeSection := ScanActive(page, activeSection);
    }

    /** A click on a navigation link selects its section and closes the menu. */
    method HandleNavClick(key: string)
      requires Valid()
      requires key in NavKeys
      modifies this
      ensures Valid()
      ensures activeSection == key && !isMenuOpen
      ensures scrolled == old(scrolled)
    {
      activeSection := key;
      isMenuOpen := false;
    }

    /** The mobile menu button. */
    method ToggleMenu()
      requires Valid()
      modifies this
      ensures Valid()
      ensures isMenuOpen == !old(isMenuOpen)
      ensures activeSection == old(activeSection) && scrolled == old(scrolled)
    {
      isMenuOpen := !isMenuOpen;
    }
  }

  /** Two presses of the menu button leave the menu as it was. */
  method ToggleMenuTwice(bar: NavBar)
    requires bar.Valid()
    modifies bar
    ensures bar.Valid()
    ensures bar.isMenuOpen == old(bar.isMenuOpen)
    ensures bar.activeSection == old(bar.activeSection) && bar.scrolled == old(bar.scrolled)
  {
    bar.ToggleMenu();
    bar.ToggleMenu();
  }
}
