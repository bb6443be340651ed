/** The home page's navigation bar (src/pages/Home/Navbar.jsx): one
    `{main, sub}` record shared by the desktop menus and the mobile menu, the
    mobile menu's open flag, the menu labels and the link targets. */
module HomeNavbar {
  import opened Lists
  import opened Text
  import opened Links

  const LanguageKey := "language"

  /** The `dropdownState` record. */
  datatype DropdownState = DropdownState(main: Option<string>, sub: Option<string>)

  const Reset := DropdownState(None, None)

  /** `handleToggle(key)` (desktop and mobile): toggles the menu, clears the submenu. */
  function MainToggled(st: DropdownState, key: string): (r: DropdownState)
    ensures r.main == Some(key) <==> st.main != Some(key)
    ensures r.main != Some(key) ==> r.main == None
    ensures r.sub == None
  {
    DropdownState(ToggleSelected(st.main, key), None)
  }

  /** `handleSubToggle(submenu)`, where `null` is what the mouse-leave handler passes. */
  function SubToggled(st: DropdownState, submenu: Option<string>): (r: DropdownState)
    ensures r.main == st.main
    ensures submenu == None ==> r.sub == None
    ensures submenu.Some? ==> (r.sub == submenu <==> st.sub != submenu)
    ensures submenu.Some? && r.sub != submenu ==> r.sub == None
  {
    st.(sub := if st.sub == submenu then None else submenu)
  }

  /** Entering a category and leaving it again closes its submenu and keeps the menu. */
  lemma EnterThenLeave(st: DropdownState, category: string)
    ensures SubToggled(SubToggled(st, Some(category)), None) == st.(sub := None)
  {
  }

  /** Toggling a menu twice from a state where it is closed ends fully reset. */
  lemma MainToggledTwice(st: DropdownState, key: string)
    requires st.main != Some(key)
    ensures MainToggled(MainToggled(st, key), key) == Reset
  {
  }

  /** A desktop menu is open, and owns the outside-click reference, iff it is `main`. */
  predicate MenuOpen(st: DropdownState, key: string) {
    st.main == Some(key)
  }

  /** A category's submenu shows iff it is `sub`. */
  predicate SubmenuShown(st: DropdownState, category: string) {
    st.sub == Some(category)
  }

  /** `mousedown` outside: the reference is attached only while a menu is
      open, so the reset happens only then. */
  function OutsideMouseDown(st: DropdownState): (r: DropdownState)
    ensures st.main.Some? ==> r == Reset
    ensures st.main.None? ==> r == st
  {
    if st.main.Some? then Reset else st
  }

  /** After an outside click no menu is open, whatever the state was. */
  lemma OutsideClickClosesMenus(st: DropdownState, key: string)
    ensures !MenuOpen(OutsideMouseDown(st), key)
  {
  }

  /** The page's part of the state: the record and the mobile menu flag. */
  datatype NavState = NavState(dropdown: DropdownState, mobileMenuOpen: bool)

  /** `toggleMobileMenu`: flips the flag and resets the record. */
  function MobileMenuToggled(st: NavState): (r: NavState)
    ensures r.mobileMenuOpen == !st.mobileMenuOpen && r.dropdown == Reset
  {
    NavState(Reset, !st.mobileMenuOpen)
  }

  /** `closeMobileMenu`, run by the mobile links: resets the record, then toggles the menu. */
  function MobileMenuClosed(st: NavState): (r: NavState)
    ensures r.dropdown == Reset
    ensures st.mobileMenuOpen ==> !r.mobileMenuOpen
    ensures r == MobileMenuToggled(st)
  {
    MobileMenuToggled(NavState(Reset, st.mobileMenuOpen))
  }

  /** Opening the mobile menu and following one of its links returns to the closed start state. */
  lemma OpenThenFollowLink(st: NavState)
    requires !st.mobileMenuOpen
    ensures MobileMenuClosed(MobileMenuToggled(st)) == NavState(Reset, false)
  {
  }

  /** `menuKey === 'language' ? '🌐 Language' : menuKey`. */
  function MenuLabel(key: string): (r: string)
    ensures key == LanguageKey ==> r == "\U{1F310} Language"
    ensures key != LanguageKey ==> r == key
  {
    if key == LanguageKey then "\U{1F310} Language" else key
  }

  /** A category entry of the explore menu: `/explore/${item.toLowerCase()}`. */
  function CategoryLink(category: string): (r: string)
    ensures |r| == 9 + |category| && r[..9] == "/explore/" && r[9..] == Lower(category)
  {
    ItemLink("explore", category)
  }

  /** A plan entry: `/plans/${item.toLowerCase()}`. */
  function PlanLink(plan: string): (r: string)
    ensures |r| == 7 + |plan| && r[..7] == "/plans/" && r[7..] == Lower(plan)
  {
    ItemLink("plans", plan)
  }

  /** A subject's link, built as in the site-wide bar, is its category's link
      followed by `/` and the subject's slug. */
  lemma SubjectLinkExtendsCategoryLink(category: string, subject: string)
    ensures ExploreLink(category, subject) == CategoryLink(category) + "/" + DashEach(Lower(subject))
  {
  }

  /** The navigation bar's state and handlers. */
  class Navbar {
    var dropdownState: DropdownState
    var mobileMenuOpen: bool

    constructor ()
      ensures dropdownState == Reset && !mobileMenuOpen
    {
      dropdownState := Reset;
      mobileMenuOpen := false;
    }

    function State(): NavState
      reads this
    {
      NavState(dropdownState, mobileMenuOpen)
    }

    /** A menu button, desktop or mobile. */
    method HandleToggle(key: string)
      modifies this`dropdownState
      ensures dropdownState == MainToggled(old(dropdownState), key)
    {
      dropdownState := DropdownState(if dropdownState.main == Some(key) then None else Some(key), None);
    }

    /** A category's mouse-enter (`Some`) or mouse-leave (`None`), or a mobile category button. */
    method HandleSubToggle(submenu: Option<string>)
      modifies this`dropdownState
      ensures dropdownState == SubToggled(old(dropdownState), submenu)
    {
      dropdownState := dropdownState.(sub := if dropdownState.sub == submenu then None else submenu);
    }

    /** `closeDropdown`, run by every desktop link. */
    method CloseDropdown()
      modifies this`dropdownState
      ensures dropdownState == Reset
    {
      dropdownState := Reset;
    }

    method HandleOutsideMouseDown()
      modifies this`dropdownState
      ensures dropdownState == OutsideMouseDown(old(dropdownState))
    {
      if dropdownState.main.Some? {
        dropdownState := Reset;
      }
    }

    method ToggleMobileMenu()
      modifies this
      ensures State() == MobileMenuToggled(old(State()))
    {
      mobileMenuOpen := !mobileMenuOpen;
      dropdownState := Reset;
    }

    method CloseMobileMenu()
      modifies this
      ensures State() == MobileMenuClosed(old(State()))
    {
      dropdownState := Reset;
      ToggleMobileMenu();
    }
  }
}
