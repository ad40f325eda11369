/**
 * The application shell: which top-level view renders, the page-transition
 * sequencer that covers a view switch with the loading overlay, and the
 * home page's product strip. `setTimeout` callbacks are queued timer events
 * that fire one at a time, in any order.
 */
module App {
  import opened Wrappers
  import opened Text
  import opened Types
  import PP = ProductsPage
  import Navigation

  /** A view switch whose state update runs when its callback fires. */
  datatype Action = SetShowAutoParts(on: bool) | SetShowProducts(on: bool) | SetShowCaseStudy(on: bool)

  datatype Job = RunCallback(action: Action) | ClearPageLoading
  datatype Timer = Timer(delayMs: nat, job: Job)

  /** Delay before the view-switch callback runs. */
  const CallbackDelayMs: nat := 100
  /** How long the overlay stays after the switch. */
  const HoldDelayMs: nat := 2300

  /** The three view flags. */
  datatype PageFlags = PageFlags(autoParts: bool, products: bool, caseStudy: bool)

  /** A callback switches exactly its own flag to `on`. */
  function Perform(f: PageFlags, a: Action): (g: PageFlags)
    ensures a.SetShowAutoParts? ==> g == f.(autoParts := a.on)
    ensures a.SetShowProducts? ==> g == f.(products := a.on)
    ensures a.SetShowCaseStudy? ==> g == f.(caseStudy := a.on)
  {
    match a
    case SetShowAutoParts(on) => PageFlags(on, f.products, f.caseStudy)
    case SetShowProducts(on) => PageFlags(f.autoParts, on, f.caseStudy)
    case SetShowCaseStudy(on) => PageFlags(f.autoParts, f.products, on)
  }

  datatype View = LoadingView | AutoPartsView | ProductsView(initialBrand: string) | CaseStudyView | HomeView

  /** The overlay wins; then auto-parts, products, case study and home. */
  function SelectView(isLoading: bool, pageLoading: bool, f: PageFlags, selectedBrand: string): (v: View)
    ensures isLoading || pageLoading ==> v == LoadingView
    ensures v == AutoPartsView <==> !isLoading && !pageLoading && f.autoParts
    ensures v.ProductsView? <==> !isLoading && !pageLoading && !f.autoParts && f.products
    ensures v.ProductsView? ==> v.initialBrand == selectedBrand
    ensures v == CaseStudyView <==> !isLoading && !pageLoading && !f.autoParts && !f.products && f.caseStudy
    ensures v == HomeView <==> !isLoading && !pageLoading && !f.autoParts && !f.products && !f.caseStudy
  {
    if isLoading || pageLoading then LoadingView
    else if f.autoParts then AutoPartsView
    else if f.products then ProductsView(selectedBrand)
    else if f.caseStudy then CaseStudyView
    else HomeView
  }

  /** The page transitions a rendered view offers, as the actions their
      callbacks perform. The home page offers the catalog (the bar's
      "Products", its dropdown, the hero buttons and the brand tiles) and the
      auto-parts page; `footerCaseStudyLink` says whether its footer renders
      a case-study link. Every other view offers only its own back button,
      and the overlay offers nothing. */
  function OfferedActions(v: View, footerCaseStudyLink: bool): (acts: set<Action>)
    ensures v == LoadingView ==> acts == {}
    ensures forall a :: a in acts && a.on ==> v == HomeView
    ensures SetShowCaseStudy(true) in acts <==> v == HomeView && footerCaseStudyLink
  {
    match v
    case LoadingView => {}
    case AutoPartsView => {SetShowAutoParts(false)}
    case ProductsView(_) => {SetShowProducts(false)}
    case CaseStudyView => {SetShowCaseStudy(false)}
    case HomeView =>
      {SetShowProducts(true), SetShowAutoParts(true)} + (if footerCaseStudyLink then {SetShowCaseStudy(true)} else {})
  }

  /** Some view offers `a`. */
  ghost predicate Offered(a: Action, footerCaseStudyLink: bool) {
    exists v :: a in OfferedActions(v, footerCaseStudyLink)
  }

  /** The view flags after the callbacks of `acts` have run in order. */
  function PerformAll(f: PageFlags, acts: seq<Action>): PageFlags
    decreases |acts|
  {
    if acts == [] then f else Perform(PerformAll(f, acts[..|acts| - 1]), acts[|acts| - 1])
  }

  /** As written, the footer takes no props and renders no case-study link,
      so no view offers `SetShowCaseStudy(true)`: whatever transitions the
      user takes, the case-study flag stays off and its view never shows. */
  lemma {:induction false} CaseStudyNeverOpens(f: PageFlags, acts: seq<Action>, isLoading: bool, pageLoading: bool, selectedBrand: string)
    requires !f.caseStudy
    requires forall i :: 0 <= i < |acts| ==> Offered(acts[i], false)
    ensures !PerformAll(f, acts).caseStudy
    ensures SelectView(isLoading, pageLoading, PerformAll(f, acts), selectedBrand) != CaseStudyView
    decreases |acts|
  {
    if acts != [] {
      var init := acts[..|acts| - 1];
      assert forall i :: 0 <= i < |init| ==> init[i] == acts[i];
      CaseStudyNeverOpens(f, init, isLoading, pageLoading, selectedBrand);
      var v :| acts[|acts| - 1] in OfferedActions(v, false);
    }
  }

  /** A card of the home page's product strip with its entrance delay. */
  datatype HomeCard = HomeCard(product: Product, delayMs: nat)

  const HomeProductLimit: nat := 8

  /** `products.slice(0, 8)`, each card delayed by 50 ms more than the last. */
  function HomeProducts(catalog: seq<Product>): (cards: seq<HomeCard>)
    ensures |cards| == if |catalog| < HomeProductLimit then |catalog| else HomeProductLimit
    ensures forall i :: 0 <= i < |cards| ==> cards[i].product == catalog[i]
    ensures forall i :: 0 <= i < |cards| ==> cards[i].delayMs == 300 + 50 * i
  {
    var n := if |catalog| < HomeProductLimit then |catalog| else HomeProductLimit;
    seq(n, i requires 0 <= i < n => HomeCard(catalog[i], 300 + 50 * i))
  }

  /** A brand tile navigates with the uppercased name, which is one of the
      catalog's filter buttons. */
  function BrandTileTarget(brand: CarBrand): (target: string)
    ensures |target| == |brand.name|
    ensures brand in CarBrands ==> target in PP.Brands
  {
    PP.UppercasedCarBrandsAreFilterButtons();
    Upper(brand.name)
  }

  class Shell {
    /** The startup loading gate; its timer is outside the model. */
    var isLoading: bool
    var pageLoading: bool
    var flags: PageFlags
    var selectedBrand: string
    var timers: seq<Timer>

    /** Every pending timer carries its fixed delay, and while the overlay
        is engaged some timer is pending that leads to clearing it. */
    predicate Valid()
      reads this
    {
      && (forall t :: t in timers ==> t.delayMs == (if t.job.RunCallback? then CallbackDelayMs else HoldDelayMs))
      && (pageLoading ==> timers != [])
    }

    constructor ()
      ensures Valid()
      ensures isLoading && !pageLoading && flags == PageFlags(false, false, false)
      ensures selectedBrand == PP.AllBrands && timers == []
    {
      isLoading := true;
      pageLoading := false;
      flags := PageFlags(false, false, false);
      selectedBrand := PP.AllBrands;
      timers := [];
    }

    function CurrentView(): View
      reads this
    {
      SelectView(isLoading, pageLoading, flags, selectedBrand)
    }

    /** The startup gate's timer fires. */
    method LoadingElapsed()
      requires Valid()
      modifies this
      ensures Valid()
      ensures !isLoading && pageLoading == old(pageLoading) && flags == old(flags)
      ensures selectedBrand == old(selectedBrand) && timers == old(timers)
    {
      isLoading := false;
    }

    /** `handlePageChange`: engage the overlay now, run the callback later. */
    method HandlePageChange(action: Action)
      requires Valid()
      modifies this
      ensures Valid()
      ensures pageLoading && timers == old(timers) + [Timer(CallbackDelayMs, RunCallback(action))]
      ensures isLoading == old(isLoading) && flags == old(flags) && selectedBrand == old(selectedBrand)
    {
      pageLoading := true;
      timers := timers + [Timer(CallbackDelayMs, RunCallback(action))];
    }

    /** A pending timer fires. The callback switches the view and only then
        schedules the clear; the clear disengages the overlay. */
    method FireTimer(i: nat)
      requires Valid() && i < |timers|
      modifies this
      ensures Valid()
      ensures isLoading == old(isLoading) && selectedBrand == old(selectedBrand)
      ensures old(timers[i].job).RunCallback? ==>
        && flags == Perform(old(flags), old(timers[i].job).action)
        && pageLoading == old(pageLoading)
        && timers == old(timers[..i] + timers[i + 1..]) + [Timer(HoldDelayMs, ClearPageLoading)]
      ensures old(timers[i].job).ClearPageLoading? ==>
        && !pageLoading && flags == old(flags)
        && timers == old(timers[..i] + timers[i + 1..])
    {
      var t := timers[i];
      var rest := timers[..i] + timers[i + 1..];
      assert forall u :: u in rest ==> u in timers;
      match t.job {
        case RunCallback(a) =>
          flags := Perform(flags, a);
          timers := rest + [Timer(HoldDelayMs, ClearPageLoading)];
        case ClearPageLoading =>
          pageLoading := false;
          timers := rest;
      }
    }

    /** "Products" in the bar, the hero button and "see all products". */
    method ScrollToProducts()
      requires Valid()
      modifies this
      ensures Valid()
      ensures pageLoading && timers == old(timers) + [Timer(CallbackDelayMs, RunCallback(SetShowProducts(true)))]
      ensures isLoading == old(isLoading) && flags == old(flags) && selectedBrand == old(selectedBrand)
    {
      HandlePageChange(SetShowProducts(true));
    }

    /** The intended "see all products": the stored brand is reset to the
        catch-all before the catalog transition starts, so the catalog opens
        unfiltered whatever brand was visited before. */
    method ShowAllProducts()
      requires Valid()
      modifies this
      ensures Valid()
      ensures selectedBrand == PP.AllBrands
      ensures pageLoading && timers == old(timers) + [Timer(CallbackDelayMs, RunCallback(SetShowProducts(true)))]
      ensures isLoading == old(isLoading) && flags == old(flags)
    {
      selectedBrand := PP.AllBrands;
      HandlePageChange(SetShowProducts(true));
    }

    /** A brand tile or dropdown entry: the brand is stored before the
        transition starts, and the catalog receives it as its initial brand. */
    method NavigateToBrand(brandName: string)
      requires Valid()
      modifies this
      ensures Valid()
      ensures selectedBrand == brandName
      ensures pageLoading && timers == old(timers) + [Timer(CallbackDelayMs, RunCallback(SetShowProducts(true)))]
      ensures isLoading == old(isLoading) && flags == old(flags)
    {
      selectedBrand := brandName;
      HandlePageChange(SetShowProducts(true));
    }

    /** A home-page brand tile. */
    method BrandTileClick(brand: CarBrand)
      requires Valid()
      modifies this
      ensures Valid()
      ensures selectedBrand == BrandTileTarget(brand) == Upper(brand.name)
      ensures pageLoading && timers == old(timers) + [Timer(CallbackDelayMs, RunCallback(SetShowProducts(true)))]
      ensures isLoading == old(isLoading) && flags == old(flags)
    {
      NavigateToBrand(Upper(brand.name));
    }

    /** "Auto parts" in the bar (true) or the auto-parts page's back
        button (false). */
    method SwitchAutoParts(on: bool)
      requires Valid()
      modifies this
      ensures Valid()
      ensures pageLoading && timers == old(timers) + [Timer(CallbackDelayMs, RunCallback(SetShowAutoParts(on)))]
      ensures isLoading == old(isLoading) && flags == old(flags) && selectedBrand == old(selectedBrand)
    {
      HandlePageChange(SetShowAutoParts(on));
    }

    /** The catalog's back button. */
    method BackFromProducts()
      requires Valid()
      modifies this
      ensures Valid()
      ensures pageLoading && timers == old(timers) + [Timer(CallbackDelayMs, RunCallback(SetShowProducts(false)))]
      ensures isLoading == old(isLoading) && flags == old(flags) && selectedBrand == old(selectedBrand)
    {
      HandlePageChange(SetShowProducts(false));
    }

    /** The case-study page's back button (false), or the footer's
        case-study link (true) that App.tsx passes and Footer does not
        render. */
    method SwitchCaseStudy(on: bool)
      requires Valid()
      modifies this
      ensures Valid()
      ensures pageLoading && timers == old(timers) + [Timer(CallbackDelayMs, RunCallback(SetShowCaseStudy(on)))]
      ensures isLoading == old(isLoading) && flags == old(flags) && selectedBrand == old(selectedBrand)
    {
      HandlePageChange(SetShowCaseStudy(on));
    }
  }

  /** One uninterrupted transition from the home page to a brand: the overlay
      covers both the tick and the hold, the callback runs before the clear
      is even scheduled, and the catalog opens with the chosen brand. Going
      back returns to the home page through the same sequence. */
  method BrandTransition(brandName: string)
    returns (before: View, during: View, afterCallback: View, pendingAfterCallback: seq<Timer>, after: View, back: View)
    ensures before == HomeView && during == LoadingView && afterCallback == LoadingView
    ensures pendingAfterCallback == [Timer(HoldDelayMs, ClearPageLoading)]
    ensures after == ProductsView(brandName) && back == HomeView
  {
    var app := new Shell();
    app.LoadingElapsed();
    before := app.CurrentView();
    app.NavigateToBrand(brandName);
    during := app.CurrentView();
    app.FireTimer(0);
    afterCallback, pendingAfterCallback := app.CurrentView(), app.timers;
    app.FireTimer(0);
    after := app.CurrentView();
    app.BackFromProducts();
    app.FireTimer(0);
    app.FireTimer(0);
    back := app.CurrentView();
  }

  /** Picking a brand from the home page's dropdown closes every menu and
      opens the catalog with that brand's filter button selected. */
  method DropdownBrandOpensCatalog(i: nat)
    returns (menusClosed: bool, view: View, selected: string)
    requires i < |CarBrands|
    ensures menusClosed
    ensures view == ProductsView(Upper(CarBrands[i].name))
    ensures selected == Upper(CarBrands[i].name) && selected in PP.Brands
  {
    var menu := new Navigation.Menu(true);
    menu.ToggleBrandsDropdown();
    var forwarded := menu.BrandEntryClick(CarBrands[i], Navigation.HomeNavProps.hasOnBrandClick);
    menusClosed := !menu.isMenuOpen && !menu.isBrandsDropdownOpen && !menu.isMobileBrandsOpen;
    var app := new Shell();
    app.LoadingElapsed();
    app.NavigateToBrand(forwarded.value);
    app.FireTimer(0);
    app.FireTimer(0);
    view := app.CurrentView();
    var page := new PP.Page(Some(view.initialBrand));
    selected := page.selectedBrand;
    assert BrandTileTarget(CarBrands[i]) == selected;
  }

  /** With a footer that renders the link it is given, the home page offers
      the case study, the transition covers it with the overlay like every
      other, the case-study view shows, and its back button returns home. */
  method CaseStudyTransition()
    returns (offered: bool, during: View, after: View, back: View)
    ensures offered && during == LoadingView && after == CaseStudyView && back == HomeView
  {
    var app := new Shell();
    app.LoadingElapsed();
    offered := SetShowCaseStudy(true) in OfferedActions(app.CurrentView(), true);
    app.SwitchCaseStudy(true);
    during := app.CurrentView();
    app.FireTimer(0);
    app.FireTimer(0);
    after := app.CurrentView();
    app.SwitchCaseStudy(false);
    app.FireTimer(0);
    app.FireTimer(0);
    back := app.CurrentView();
  }

  /** The mobile menu's Products entry on the home page closes the menu and
      then runs the bar's `onProductsClick`, which opens the catalog with
      every brand. */
  method MobileProductsOpensCatalog()
    returns (menuClosed: bool, invoked: Navigation.MobileEntry, view: View)
    ensures menuClosed && invoked == Navigation.ProductsEntry
    ensures view == ProductsView(PP.AllBrands)
  {
    var menu := new Navigation.Menu(true);
    invoked := menu.MobileEntryClick(Navigation.ProductsEntry);
    menuClosed := !menu.isMenuOpen;
    var app := new Shell();
    app.LoadingElapsed();
    if invoked == Navigation.ProductsEntry && Navigation.HomeNavProps.hasOnProductsClick {
      app.ScrollToProducts();
      app.FireTimer(0);
      app.FireTimer(0);
    }
    view := app.CurrentView();
  }

  /** As written, `scrollToProducts` does not touch the stored brand: after
      a visit to one brand's catalog and the back button, "see all products"
      opens the catalog still filtered to that brand. */
  method AllProductsKeepsLastBrand(brandName: string) returns (home: View, view: View)
    ensures home == HomeView
    ensures view == ProductsView(brandName)
  {
    var app := new Shell();
    app.LoadingElapsed();
    app.NavigateToBrand(brandName);
    app.FireTimer(0);
    app.FireTimer(0);
    app.BackFromProducts();
    app.FireTimer(0);
    app.FireTimer(0);
    home := app.CurrentView();
    app.ScrollToProducts();
    app.FireTimer(0);
    app.FireTimer(0);
    view := app.CurrentView();
  }

  /** With the brand reset, the same visit followed by "see all products"
      opens the catalog on every brand. */
  method AllProductsAfterBrandVisit(brandName: string) returns (home: View, view: View)
    ensures home == HomeView
    ensures view == ProductsView(PP.AllBrands)
  {
    var app := new Shell();
    app.LoadingElapsed();
    app.NavigateToBrand(brandName);
    app.FireTimer(0);
    app.FireTimer(0);
    app.BackFromProducts();
    app.FireTimer(0);
    app.FireTimer(0);
    home := app.CurrentView();
    app.ShowAllProducts();
    app.FireTimer(0);
    app.FireTimer(0);
    view := app.CurrentView();
  }
}
