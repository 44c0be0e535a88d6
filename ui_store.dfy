/** src/stores/useUIStore.ts: the page-wide UI flags. */
module UIStore {

  class UIStore {
    var isMobileMenuOpen: bool
    var scrollY: real
    var isLoading: bool

    /** The store as created: menu closed, not scrolled, not loading. */
    constructor ()
      ensures !isMobileMenuOpen && scrollY == 0.0 && !isLoading
    {
      isMobileMenuOpen := false;
      scrollY := 0.0;
      isLoading := false;
    }

    /** `toggleMobileMenu`: flips the menu; twice in a row restores it. */
    method ToggleMobileMenu()
      modifies this`isMobileMenuOpen
      ensures isMobileMenuOpen == !old(isMobileMenuOpen)
    {
      isMobileMenuOpen := !isMobileMenuOpen;
    }

    /** `closeMobileMenu`: the menu is closed afterwards, whatever it was. */
    method CloseMobileMenu()
      modifies this`isMobileMenuOpen
      ensures !isMobileMenuOpen
    {
      isMobileMenuOpen := false;
    }

    /** `setScrollY`: only the scroll position changes. */
    method SetScrollY(y: real)
      modifies this`scrollY
      ensures scrollY == y
    {
      scrollY := y;
    }

    /** `setLoading`: only the loading flag changes. */
    method SetLoading(loading: bool)
      modifies this`isLoading
      ensures isLoading == loading
    {
      isLoading := loading;
    }

    /** Toggling twice leaves the whole store as it was. */
    method ToggleTwice()
      modifies this`isMobileMenuOpen
      ensures isMobileMenuOpen == old(isMobileMenuOpen)
    {
      ToggleMobileMenu();
      ToggleMobileMenu();
    }
  }
}
