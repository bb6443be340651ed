/** The site-wide navigation bar (src/shared/Navbar.jsx): the `useDropdown`
    hook's desktop menu and submenu state, the mobile menu's three fields,
    and the link targets built from the menu configuration. */
module SharedNavbar {
  import opened Lists
  import opened Text
  import opened Links

  const LanguageKey := "language"

  /** The hook's two visible fields. */
  datatype DropdownState = DropdownState(active: Option<string>, submenu: Option<string>)

  const Closed := DropdownState(None, None)

  /** `openDropdown(key)`: that menu, with no submenu. */
  function OpenDropdown(key: string): (r: DropdownState)
    ensures r.active == Some(key) && r.submenu == None
  {
    DropdownState(Some(key), None)
  }

  /** `toggleDropdown(key)`: closes when `key` is the open menu, opens it otherwise. */
  function DropdownToggled(st: DropdownState, key: string): (r: DropdownState)
    ensures r.active == ToggleSelected(st.active, key)
    ensures r.submenu == None
  {
    if st.active == Some(key) then Closed else OpenDropdown(key)
  }

  /** A desktop menu is open iff it is the active one. */
  predicate MenuOpen(st: DropdownState, key: string) {
    st.active == Some(key)
  }

  /** Two toggles of a menu from a state where it is closed close everything. */
  lemma ToggleDropdownTwice(st: DropdownState, key: string)
    requires !MenuOpen(st, key)
    ensures DropdownToggled(DropdownToggled(st, key), key) == Closed
  {
  }

  /** At most one desktop menu is open, and toggling one menu closes any other. */
  lemma OneMenuOpen(st: DropdownState, a: string, b: string)
    ensures MenuOpen(st, a) && MenuOpen(st, b) ==> a == b
    ensures a != b ==> !MenuOpen(DropdownToggled(st, a), b)
  {
  }

  /** The mobile menu's fields. */
  datatype MobileState = MobileState(menuOpen: bool, dropdown: Option<string>, submenu: Option<string>)

  /** `toggleMobileMenu`: flips the menu and closes both of its levels. */
  function MobileMenuToggled(st: MobileState): (r: MobileState)
    ensures r.menuOpen == !st.menuOpen && r.dropdown == None && r.submenu == None
  {
    MobileState(!st.menuOpen, None, None)
  }

  /** `toggleMobileDropdown(key)`: toggles the section and always clears the submenu. */
  function MobileDropdownToggled(st: MobileState, key: string): (r: MobileState)
    ensures r.menuOpen == st.menuOpen
    ensures r.dropdown == Some(key) <==> st.dropdown != Some(key)
    ensures r.dropdown != Some(key) ==> r.dropdown == None
    ensures r.submenu == None
  {
    MobileState(st.menuOpen, ToggleSelected(st.dropdown, key), None)
  }

  /** `toggleMobileSubmenu(key)`: touches the submenu only. */
  function MobileSubmenuToggled(st: MobileState, key: string): (r: MobileState)
    ensures r.menuOpen == st.menuOpen && r.dropdown == st.dropdown
    ensures r.submenu == Some(key) <==> st.submenu != Some(key)
    ensures r.submenu != Some(key) ==> r.submenu == None
  {
    st.(submenu := ToggleSelected(st.submenu, key))
  }

  /** Opening and then closing the mobile menu returns to the initial state. */
  lemma MobileMenuRoundTrip(st: MobileState)
    ensures MobileMenuToggled(MobileMenuToggled(st)) == MobileState(st.menuOpen, None, None)
    ensures !st.menuOpen ==> MobileMenuToggled(MobileMenuToggled(st)) == MobileState(false, None, None)
  {
  }

  /** `menuKey === 'language' ? '#' : `/${menuKey}/${item.toLowerCase()}``. */
  function SimpleLink(menuKey: string, item: string): (r: string)
    ensures menuKey == LanguageKey <==> r == "#"
    ensures menuKey != LanguageKey ==> r == ItemLink(menuKey, item)
  {
    if menuKey == LanguageKey then "#" else ItemLink(menuKey, item)
  }

  /** The navigation bar's state: the hook's fields, the pending submenu close,
      and the mobile menu. The 150 ms submenu timer is an explicit step. */
  class Navbar {
    var activeDropdown: Option<string>
    var activeSubmenu: Option<string>
    var submenuClosePending: bool
    var mobileMenuOpen: bool
    var mobileDropdown: Option<string>
    var mobileSubmenu: Option<string>

    constructor ()
      ensures activeDropdown == None && activeSubmenu == None && !submenuClosePending
      ensures !mobileMenuOpen && mobileDropdown == None && mobileSubmenu == None
    {
      activeDropdown := None;
      activeSubmenu := None;
      submenuClosePending := false;
      mobileMenuOpen := false;
      mobileDropdown := None;
      mobileSubmenu := None;
    }

    function Desktop(): DropdownState
      reads this
    {
      DropdownState(activeDropdown, activeSubmenu)
    }

    function Mobile(): MobileState
      reads this
    {
      MobileState(mobileMenuOpen, mobileDropdown, mobileSubmenu)
    }

    /** `closeDropdown`, also run by a mousedown outside the desktop menus
        and by a click on one of their links. */
    method CloseDropdown()
      modifies this`activeDropdown, this`activeSubmenu
      ensures Desktop() == Closed
    {
      activeDropdown := None;
      activeSubmenu := None;
    }

    /** `toggleDropdown(key)`, run both by a click on a menu button and by the
        mouse entering it. */
    method ToggleDropdown(key: string)
      modifies this`activeDropdown, this`activeSubmenu
      ensures Desktop() == DropdownToggled(old(Desktop()), key)
    {
      if activeDropdown == Some(key) {
        activeDropdown := None;
        activeSubmenu := None;
      } else {
        activeDropdown := Some(key);
        activeSubmenu := None;
      }
    }

    /** `openSubmenu(category)`: cancels a pending close and shows the category. */
    method OpenSubmenu(category: string)
      modifies this`activeSubmenu, this`submenuClosePending
      ensures activeSubmenu == Some(category) && !submenuClosePending
    {
      submenuClosePending := false;
      activeSubmenu := Some(category);
    }

    /** `closeSubmenu`: schedules the close. */
    method CloseSubmenu()
      modifies this`submenuClosePending
      ensures submenuClosePending
    {
      submenuClosePending := true;
    }

    /** `cancelSubmenuClose`: the mouse reached the submenu in time. */
    method CancelSubmenuClose()
      modifies this`submenuClosePending
      ensures !submenuClosePending
    {
      submenuClosePending := false;
    }

    /** The scheduled close firing. */
    method SubmenuTimerFires()
      requires submenuClosePending
      modifies this`activeSubmenu, this`submenuClosePending
      ensures activeSubmenu == None && !submenuClosePending
    {
      activeSubmenu := None;
      submenuClosePending := false;
    }

    /** The menu button, and every link inside the mobile menu. */
    method ToggleMobileMenu()
      modifies this`mobileMenuOpen, this`mobileDropdown, this`mobileSubmenu
      ensures Mobile() == MobileMenuToggled(old(Mobile()))
    {
      mobileMenuOpen := !mobileMenuOpen;
      mobileDropdown := None;
      mobileSubmenu := None;
    }

    method ToggleMobileDropdown(key: string)
      modifies this`mobileDropdown, this`mobileSubmenu
      ensures Mobile() == MobileDropdownToggled(old(Mobile()), key)
    {
      mobileDropdown := if mobileDropdown == Some(key) then None else Some(key);
      mobileSubmenu := None;
    }

    method ToggleMobileSubmenu(key: string)
      modifies this`mobileSubmenu
      ensures Mobile() == MobileSubmenuToggled(old(Mobile()), key)
    {
      mobileSubmenu := if mobileSubmenu == Some(key) then None else Some(key);
    }
  }
}
