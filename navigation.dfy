/**
 * The navigation bar: the desktop brands dropdown, the mobile menu and its
 * brands list. The menu flag belongs to the parent page, which passes it
 * down with its setter; here it is a field of the same object.
 */
module Navigation {
  import opened Wrappers
  import opened Text
  import opened Types

  /** Mobile-menu entries that close the menu before calling their handler. */
  datatype MobileEntry = ProductsEntry | AutoPartsEntry | ContactEntry

  class Menu {
    var isMenuOpen: bool
    var isBrandsDropdownOpen: bool
    var isMobileBrandsOpen: bool

    constructor (isMenuOpen: bool)
      ensures this.isMenuOpen == isMenuOpen
      ensures !isBrandsDropdownOpen && !isMobileBrandsOpen
    {
      this.isMenuOpen := isMenuOpen;
      isBrandsDropdownOpen := false;
      isMobileBrandsOpen := false;
    }

    /** The desktop "Marke" button. */
    method ToggleBrandsDropdown()
      modifies this
      ensures isBrandsDropdownOpen == !old(isBrandsDropdownOpen)
      ensures isMobileBrandsOpen == old(isMobileBrandsOpen) && isMenuOpen == old(isMenuOpen)
    {
      isBrandsDropdownOpen := !isBrandsDropdownOpen;
    }

    /** The mobile "Marke" button. */
    method ToggleMobileBrands()
      modifies this
      ensures isMobileBrandsOpen == !old(isMobileBrandsOpen)
      ensures isBrandsDropdownOpen == old(isBrandsDropdownOpen) && isMenuOpen == old(isMenuOpen)
    {
      isMobileBrandsOpen := !isMobileBrandsOpen;
    }

    /** The mobile menu button. */
    method ToggleMenu()
      modifies this
      ensures isMenuOpen == !old(isMenuOpen)
      ensures isBrandsDropdownOpen == old(isBrandsDropdownOpen) && isMobileBrandsOpen == old(isMobileBrandsOpen)
    {
      isMenuOpen := !isMenuOpen;
    }

    /** Close everything, then forward the name unchanged to `onBrandClick`
        when the parent gave one; `forwarded` is that call. */
    method HandleBrandClick(brandName: string, hasOnBrandClick: bool) returns (forwarded: Option<string>)
      modifies this
      ensures !isBrandsDropdownOpen && !isMobileBrandsOpen && !isMenuOpen
      ensures forwarded == if hasOnBrandClick then Some(brandName) else None
    {
      isBrandsDropdownOpen := false;
      isMobileBrandsOpen := false;
      isMenuOpen := false;
      forwarded := if hasOnBrandClick then Some(brandName) else None;
    }

    /** A desktop or mobile dropdown entry: the brand's name, uppercased. */
    method BrandEntryClick(brand: CarBrand, hasOnBrandClick: bool) returns (forwarded: Option<string>)
      modifies this
      ensures !isBrandsDropdownOpen && !isMobileBrandsOpen && !isMenuOpen
      ensures forwarded == if hasOnBrandClick then Some(Upper(brand.name)) else None
    {
      forwarded := HandleBrandClick(Upper(brand.name), hasOnBrandClick);
    }

    /** Products, Auto-parts or Contact in the mobile menu: close the menu,
        then call the entry's handler; `invoked` is that call. */
    method MobileEntryClick(entry: MobileEntry) returns (invoked: MobileEntry)
      modifies this
      ensures !isMenuOpen && invoked == entry
      ensures isBrandsDropdownOpen == old(isBrandsDropdownOpen) && isMobileBrandsOpen == old(isMobileBrandsOpen)
    {
      isMenuOpen := false;
      invoked := entry;
    }
  }

  /** Which optional props the parent passes. */
  datatype NavProps = NavProps(
    showBackButton: bool,
    hasOnBack: bool,
    hasSetSearchTerm: bool,
    hasOnProductsClick: bool,
    hasOnAutoPartsClick: bool,
    hasOnBrandClick: bool)

  /** Controls of the desktop bar. */
  datatype Control = BackButton | SearchInput | BrandsDropdown | ProductsLink | AutoPartsLink

  /** The home page's navigation bar. */
  const HomeNavProps := NavProps(false, false, false, true, true, true)
  /** The catalog page's navigation bar. */
  const ProductsPageNavProps := NavProps(true, true, true, false, false, true)

  /** The desktop controls as written: the links, the dropdown and the
      search input all sit inside the block that a back button hides. */
  function DesktopControls(p: NavProps): (cs: set<Control>)
    ensures p.showBackButton ==> SearchInput !in cs && BrandsDropdown !in cs
    ensures BackButton in cs <==> p.showBackButton && p.hasOnBack
  {
    (if p.showBackButton && p.hasOnBack then {BackButton} else {})
    + (if !p.showBackButton && p.hasSetSearchTerm then {SearchInput} else {})
    + (if !p.showBackButton && p.hasOnBrandClick then {BrandsDropdown} else {})
    + (if !p.showBackButton && p.hasOnProductsClick then {ProductsLink} else {})
    + (if !p.showBackButton && p.hasOnAutoPartsClick then {AutoPartsLink} else {})
  }

  /** As written, no page ever shows the search input: the catalog page
      passes a setter but also asks for the back button, and the home page
      passes no setter. */
  lemma SearchInputNeverShown()
    ensures SearchInput !in DesktopControls(ProductsPageNavProps)
    ensures SearchInput !in DesktopControls(HomeNavProps)
  {
  }

  /** The evidently intended bar: the search input is shown whenever the
      parent passes a setter; everything else as written. */
  function DesktopControlsIntended(p: NavProps): (cs: set<Control>)
    ensures SearchInput in cs <==> p.hasSetSearchTerm
    ensures cs - {SearchInput} == DesktopControls(p) - {SearchInput}
  {
    (DesktopControls(p) - {SearchInput}) + (if p.hasSetSearchTerm then {SearchInput} else {})
  }

  /** With the intended bar the catalog page offers its search input next
      to the back button, and the home page still has none. */
  lemma CatalogSearchShownWhenIntended()
    ensures SearchInput in DesktopControlsIntended(ProductsPageNavProps)
    ensures BackButton in DesktopControlsIntended(ProductsPageNavProps)
    ensures SearchInput !in DesktopControlsIntended(HomeNavProps)
  {
  }
}
