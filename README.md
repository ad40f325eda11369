# Air-suspension parts site: a Dafny model of its state and selection logic

The site is a client-rendered catalog and inquiry page for a retailer of
vehicle air-suspension parts. This project models the parts of it that hold
logic rather than markup, and proves what they promise:

- **Catalog filter** (`ProductsPage`, `Sequences`, `Text`): the products of
  the selected brand (or of every brand under the catch-all `"SVE"`) whose
  lowered name, brand or model contains the lowered search term. The filter
  is `Array.prototype.filter`, modelled as `Sequences.FilterBy`. It is
  proved sound and complete, order- and multiplicity-preserving, and
  idempotent. It is also proved to ignore the brand under `"SVE"`, to ignore
  the term when the term is empty, and to see the term only through its
  lowercased form. The page's own state (brand, term, view mode) is the
  class `ProductsPage.Page`.
- **Inquiry form** (`ContactForm`, `EmailService`): a five-field draft, an
  in-flight flag and a status of idle, success or error. A submission is two
  events: `HandleSubmit`, which validates and starts the mail call, and
  `Settle`, which runs when the call returns `true`, returns `false` or
  throws. The 5-second success timer is a third event, `ResetTimerFires`.
  The mail relay is an oracle value.
- **Section visibility** (`Visibility`): a string-to-bool map that starts
  all true. An intersection batch only ever writes true. The ref table maps
  section names to elements.
- **Page transitions and view choice** (`App`): `handlePageChange` turns the
  loading overlay on, queues the 100 ms callback, and the callback queues
  the 2300 ms clear. Timers are queued events that fire one at a time, in
  any order. The overlay takes priority over the views, and the views rank
  auto-parts, products, case study, home. The home page shows the first
  eight products.
- **Navigation bar** (`Navigation`): three booleans with toggles and the
  close-everything-then-forward brand click.

State the source updates in place is a class with `modifies` clauses. These
are `ContactForm.Form`, `Visibility.SectionTracker`, `App.Shell`,
`Navigation.Menu` and `ProductsPage.Page`. Pure selections are functions.
The client methods `ContactForm.SuccessfulInquiry`, `App.BrandTransition`
and similar ones drive these classes through whole user scenarios.

Notes on the code:
- The visibility flags start true, so content is never hidden before an
  observer fires (`useIntersectionObserver.ts:12-19`).
- Required form fields are not trimmed, so a field of spaces passes
  validation (`ContactForm.tsx:32`).
- There is no "submitting" status value. `isSubmitting` is a separate flag,
  and the status is set to idle while a call is in flight (`ContactForm.tsx:37-38`).
- `sendContactEmail` catches every error itself and returns `false`
  (`emailService.ts:47-50`), so the form's `catch` branch (`ContactForm.tsx:61-63`)
  can never be taken. `ContactForm.Form.Settle` keeps the `Threw` case for
  that branch, and `ContactForm.InquiryThroughMailService` shows that it is
  dead when the real service is called.

## Model

| member | source | states |
|---|---|---|
| `Text.IncludesIffOccurs` | src/components/ProductsPage.tsx:42-44 | `includes` holds exactly when the term occurs at some index of the text |
| `Text.Lower` | src/components/ProductsPage.tsx:42-44 | `toLowerCase`: same length, each character lowered (ASCII letters) |
| `Text.Upper` | src/components/Navigation.tsx:104 | `toUpperCase` (also App.tsx:213 and Navigation.tsx:207): same length, each character uppercased (ASCII letters) |
| `Text.Includes` | src/components/ProductsPage.tsx:42-44 | `includes`: the empty term is found in every string, and a term longer than the text never is |
| `Sequences.FilterBy` | src/components/ProductsPage.tsx:40-46 | every result element is in the input and passes the test; every input element that passes is in the result |
| `Sequences.FilterBySelectsInOrder` | src/components/ProductsPage.tsx:40-46 | the result's k-th element is the input element at the k-th kept index; kept indices increase strictly; an index is kept iff its element passes |
| `Sequences.FilterByCounts` | src/components/ProductsPage.tsx:40-46 | a passing value occurs in the result as often as in the input, a failing one never |
| `Sequences.FilterByKeepsAll` | src/components/ProductsPage.tsx:40-46 | a sequence whose elements all pass is returned unchanged |
| `Sequences.FilterByIdempotent` | src/components/ProductsPage.tsx:40-46 | filtering the result again with the same test returns it unchanged |
| `Sequences.FilterByExtensional` | src/components/ProductsPage.tsx:40-46 | two tests that agree on every input element give the same result |
| `Sequences.FilterByEmptyIff` | src/components/ProductsPage.tsx:170 | the result is empty iff no input element passes |
| `ProductsPage.MatchesBrand` | src/components/ProductsPage.tsx:41 | "SVE" admits every product; every other filter button compares the brand exactly |
| `ProductsPage.MatchesSearch` | src/components/ProductsPage.tsx:42-44 | holds iff the lowered term occurs at some index of the lowered name, brand or model; the empty term matches every product |
| `ProductsPage.Matches` | src/components/ProductsPage.tsx:40-46 | in the initial state ("SVE", empty term) every product matches; under a named brand a product of another brand never does |
| `ProductsPage.FilteredProducts` | src/components/ProductsPage.tsx:39-47 | soundness: every shown product is in the catalog, matches the brand and matches the search in name, brand or model; completeness: every catalog product that does is shown |
| `ProductsPage.FilteredProductsInCatalogOrder` | src/components/ProductsPage.tsx:39-47 | the shown list is exactly the matching catalog positions, in catalog order, with catalog multiplicities |
| `ProductsPage.FilteredProductsIdempotent` | src/components/ProductsPage.tsx:39-47 | filtering the shown list again with the same brand and term returns it unchanged |
| `ProductsPage.AllBrandsFiltersBySearchOnly` | src/components/ProductsPage.tsx:41 | under the catch-all "SVE" the brand test is vacuous: the result is the search-only filter |
| `ProductsPage.EmptySearchFiltersByBrandOnly` | src/components/ProductsPage.tsx:41-44 | with the empty term every product of the selected brand is shown, in order |
| `ProductsPage.SearchDependsOnLoweredTerm` | src/components/ProductsPage.tsx:42-44 | two terms with the same lowercased form give the same result |
| `ProductsPage.BrandMatchIsCaseSensitive` | src/components/ProductsPage.tsx:41 | a product of brand "Bmw" is not shown under the button "BMW" |
| `ProductsPage.MixedCaseSearchFindsName` | src/components/ProductsPage.tsx:42-44 | "x5" and "X5" both find the product named "BMW X5 Air Suspension" under "SVE" |
| `ProductsPage.NoResultsIffNothingMatches` | src/components/ProductsPage.tsx:170 | the filtered length is 0 iff no catalog product matches |
| `ProductsPage.UppercasedCarBrandIsFilterButton` | src/data/carBrands.ts:4-8 | each brand's uppercased name is one of the filter buttons |
| `ProductsPage.UppercasedCarBrandsAreFilterButtons` | src/components/ProductsPage.tsx:37 | every uppercased brand-table name, and the default "SVE", is among the filter buttons |
| `ProductsPage.Page.constructor` | src/components/ProductsPage.tsx:20-23 | the selected brand is the `initialBrand` prop, or "SVE" when absent; the term is empty and the view mode is grid |
| `ProductsPage.Page.SelectBrand` | src/components/ProductsPage.tsx:122 | a filter button (and the forwarded navigation brand, line 59) sets only the selected brand |
| `ProductsPage.Page.SetSearchTerm` | src/components/Navigation.tsx:139 | the typed value becomes the search term verbatim; nothing else changes |
| `ProductsPage.Page.SetViewMode` | src/components/ProductsPage.tsx:142-150 | the grid/list buttons set only the view mode |
| `ProductsPage.Page.Shown` | src/components/ProductsPage.tsx:137-176 | the count label is the filtered length in both branches; "no results" iff that count is 0 iff no catalog product matches; otherwise the cards are exactly the filtered products, in catalog order |
| `EmailService.SendContactEmail` | src/utils/emailService.ts:17-50 | true iff the three configuration values are non-empty and the relay acknowledged; a relay error becomes false |
| `ContactForm.WithField` | src/components/ContactForm.tsx:20-26 | the named field takes the new value; the other four are unchanged |
| `ContactForm.Form.constructor` | src/components/ContactForm.tsx:9-18 | all five fields empty, not submitting, status idle, no timer pending |
| `ContactForm.Form.HandleInputChange` | src/components/ContactForm.tsx:20-26 | the draft changes in the named field only; flag, status and timers unchanged |
| `ContactForm.Form.HandleSubmit` | src/components/ContactForm.tsx:28-41 | requires the enabled button (`disabled={isSubmitting}`, line 135); the draft goes to the mail call iff name, phone and marka are non-empty, and then in-flight is set, the button disabled and status idle; otherwise nothing changes; the draft is never changed |
| `ContactForm.Form.Settle` | src/components/ContactForm.tsx:41-66 | success: status success, draft cleared, one timer scheduled; false or throw: status error, draft as it was; on every path the button (line 135) is enabled again |
| `ContactForm.Form.ResetTimerFires` | src/components/ContactForm.tsx:55-57 | the success timer sets status idle and touches nothing else |
| `ContactForm.EmptyPhoneNeverSends` | src/components/ContactForm.tsx:32-35 | with an empty phone the mail call is never made; status, flag and draft stay as typed |
| `ContactForm.SuccessfulInquiry` | src/components/ContactForm.tsx:43-57 | a complete draft is sent verbatim; success clears it; after the timer the status is idle with no user action |
| `ContactForm.FailedInquiry` | src/components/ContactForm.tsx:58-66 | a false result or a throw leaves the draft verbatim, status error, no timer, submit enabled |
| `ContactForm.InquiryThroughMailService` | src/components/ContactForm.tsx:41-66 | with the real mail call (emailService.ts:17-50) the throw path is never taken; success iff the configuration is complete and the relay acknowledges, else error with the draft kept |
| `Visibility.ApplyEntriesMarksSections` | src/hooks/useIntersectionObserver.ts:30-40 | a batch adds/sets every qualifying section to true and keeps every other key's value |
| `Visibility.Mark` | src/hooks/useIntersectionObserver.ts:33-39 | a qualifying entry (intersecting, non-empty section name) sets its key to true, adding it if new; every other key keeps its value |
| `Visibility.ApplyEntries` | src/hooks/useIntersectionObserver.ts:30-40 | a batch drops no key, and a flag that is false afterwards was present and false before |
| `Visibility.ApplyEntriesOrderIndependent` | src/hooks/useIntersectionObserver.ts:30-40 | reordering the entries of a batch does not change the result |
| `Visibility.ApplyEntriesNeverClears` | src/hooks/useIntersectionObserver.ts:33-39 | a true flag stays true |
| `Visibility.ApplyEntriesKeepsAllTrue` | src/hooks/useIntersectionObserver.ts:33-39 | an all-true map stays all true |
| `Visibility.InitialVisibility` | src/hooks/useIntersectionObserver.ts:12-19 | exactly the keys of the initial state, each mapped to true whatever was passed |
| `Visibility.SectionTracker.constructor` | src/hooks/useIntersectionObserver.ts:12-21 | the flags are all true over the initial keys; the ref table is empty |
| `Visibility.SectionTracker.SetRef` | src/hooks/useIntersectionObserver.ts:23-25 | the element is stored under its key; other refs and the flags unchanged |
| `Visibility.SectionTracker.OnIntersections` | src/hooks/useIntersectionObserver.ts:29-40 | the per-entry loop yields the batch function of the old flags; refs unchanged; all flags stay true |
| `Navigation.Menu.constructor` | src/components/Navigation.tsx:30-31 | both dropdowns start closed |
| `Navigation.Menu.ToggleBrandsDropdown` | src/components/Navigation.tsx:87 | flips the desktop dropdown only |
| `Navigation.Menu.ToggleMobileBrands` | src/components/Navigation.tsx:192 | flips the mobile brands list only |
| `Navigation.Menu.ToggleMenu` | src/components/Navigation.tsx:162 | flips the mobile menu only |
| `Navigation.Menu.HandleBrandClick` | src/components/Navigation.tsx:55-60 | all three flags false, then the name is forwarded unchanged iff `onBrandClick` is given |
| `Navigation.Menu.BrandEntryClick` | src/components/Navigation.tsx:103-105 | a dropdown entry (desktop, and mobile at 207) forwards the brand's uppercased name after closing everything |
| `Navigation.Menu.MobileEntryClick` | src/components/Navigation.tsx:178-181 | the mobile Products (and Auto-parts 222-225, Contact 233-236) entry closes only the menu and names the entry whose handler runs next; `App.MobileProductsOpensCatalog` follows that handler to the catalog |
| `Navigation.DesktopControls` | src/components/Navigation.tsx:76-157 | with a back button there is neither search input nor brands dropdown; the back button shows iff asked for with a handler |
| `Navigation.SearchInputNeverShown` | src/components/Navigation.tsx:131 | as written neither the catalog's nor the home page's bar shows the search input |
| `Navigation.DesktopControlsIntended` | src/components/Navigation.tsx:131-144 | the search input shows iff a setter is passed; every other control as written |
| `Navigation.CatalogSearchShownWhenIntended` | src/components/Navigation.tsx:131-144 | with the intended bar the catalog page shows the search input beside its back button |
| `App.Perform` | src/App.tsx:67-79 | a view-switch callback sets exactly its own flag |
| `App.SelectView` | src/App.tsx:63-82 | overlay iff loading or page-loading; otherwise auto-parts, then products (with the selected brand as initial brand), then case study, then home, each iff the higher ones are off |
| `App.OfferedActions` | src/App.tsx:63-397 | the overlay offers no transition; only the home page opens a view; the home page offers the case study iff its footer renders the link |
| `App.CaseStudyNeverOpens` | src/components/Footer.tsx:3 | as written (no footer link), any run of offered transitions from a state with the case-study flag off keeps it off, and the case-study view never shows |
| `App.HomeProducts` | src/App.tsx:265-270 | the first min(8, catalog size) products in catalog order, card i delayed 300 + 50·i ms |
| `App.BrandTileTarget` | src/App.tsx:213 | a tile navigates with its name uppercased, which is a catalog filter button |
| `App.Shell.constructor` | src/App.tsx:18-25 | no view flag set, brand "SVE", no page loading, no timers, startup gate on |
| `App.Shell.LoadingElapsed` | src/App.tsx:25 | the startup gate turns off; nothing else changes |
| `App.Shell.HandlePageChange` | src/App.tsx:37-39 | the overlay turns on at once and only the 100 ms callback is queued; views and brand unchanged |
| `App.Shell.FireTimer` | src/App.tsx:39-44 | the callback switches its flag and only then queues the 2300 ms clear; the clear turns the overlay off; the overlay always has a pending timer |
| `App.Shell.ScrollToProducts` | src/App.tsx:47-49 | starts a transition whose callback shows the catalog; the stored brand is left as it was |
| `App.Shell.ShowAllProducts` | src/App.tsx:47-49 | the intended "see all products": the stored brand becomes "SVE" before the same catalog transition starts |
| `App.Shell.NavigateToBrand` | src/App.tsx:51-54 | stores the brand before starting the catalog transition |
| `App.Shell.BrandTileClick` | src/App.tsx:213 | a home tile stores its uppercased name and starts the catalog transition |
| `App.Shell.SwitchAutoParts` | src/App.tsx:68 | the bar's auto-parts entry (line 88, on) and the auto-parts page's back button (off) start a transition whose callback sets only the auto-parts flag to `on` |
| `App.Shell.BackFromProducts` | src/App.tsx:73 | the catalog's back button starts a transition that clears only the products flag |
| `App.Shell.SwitchCaseStudy` | src/App.tsx:79 | the case-study page's back button (off), and the footer callback App.tsx:397 passes (on), start a transition whose callback sets only the case-study flag to `on` |
| `App.BrandTransition` | src/App.tsx:37-82 | home, then the overlay through tick and hold, the clear queued only by the callback, then the catalog with the chosen brand; back returns home |
| `App.DropdownBrandOpensCatalog` | src/App.tsx:51-54 | a dropdown pick closes every menu and opens the catalog with that brand's filter button selected |
| `App.MobileProductsOpensCatalog` | src/components/Navigation.tsx:176-181 | from a fresh start, the mobile Products entry on the home page closes the menu and then runs `onProductsClick` (App.tsx:87, 47-49), which opens the catalog with every brand |
| `App.CaseStudyTransition` | src/App.tsx:37-79 | with a footer that renders its link, home offers the case study, the overlay covers the switch, the case-study view shows and its back button returns home |
| `App.AllProductsKeepsLastBrand` | src/App.tsx:47-54 | as written: after one brand's catalog and the back button, "see all products" opens the catalog still filtered to that brand |
| `App.AllProductsAfterBrandVisit` | src/App.tsx:47-54 | with the brand reset, the same visit followed by "see all products" opens the catalog on every brand |

## Left out

- Browser side effects are not modelled: `alert` on failed validation, `window.scrollTo` after a brand click, `scrollIntoView` for the contact section, `window.open('tel:…')`, and console logging.
- IntersectionObserver mechanics are not modelled: observing and unobserving refs, `threshold = 0.1` and the root margin. A callback batch is an input.
- The click-outside listener in the navigation bar is not modelled. It depends on DOM containment and the window width.
- The `useLoading` hook is not part of this model. In the shell, `isLoading` starts true and an explicit `LoadingElapsed` event clears it. The catalog page's own loading screen (`ProductsPage.tsx:26, 49-51`) is not modelled.
- The products data file is not part of this model. The catalog is an arbitrary sequence.
- Wall-clock time is not modelled. Timers fire one at a time in any order, which over-approximates real timing. No property is claimed about overlapping transitions or about success timers that outlive a newer submission.
- `Lower` and `Upper` map ASCII letters only, where JavaScript maps all of Unicode. Every filter property is stated so that it holds for any case mapping; only the concrete "x5" and brand-name lemmas read actual letters, and those are ASCII.
- Markup, styling and animation delays are presentational and not modelled. The one exception is the home strip's card delay. This covers the loading screen, product cards, footer, auto-parts and case-study pages, including the case study's document-title update.
- The email template parameters and the EmailJS initialisation are not modelled. Only the boolean result of `sendContactEmail` is.
- `ContactForm.Form.HandleInputChange`: the field is one of the five inputs. A JavaScript change event from an input with some other `name` would add a new key; the form has no such input.
- `ContactForm.Form.HandleSubmit`: requires that no call is in flight. The disabled submit button (`ContactForm.tsx:135`) rules out a second submission. Two overlapping submissions are not modelled.
- React batching is modelled as one atomic step: the several state writes of one handler take effect together.
- The menu-open flag is the parent page's state; `Navigation.Menu` holds it as a field. The desktop "Početna" and "Kontakt" `#` links do nothing and are not modelled.

## Findings

| source | as written | input that shows it | evidently intended | confidence | as-written member | corrected member |
|---|---|---|---|---|---|---|
| src/components/Navigation.tsx:76-144 | the search input renders only when `showBackButton` is false | the catalog page passes `setSearchTerm` but also `showBackButton={true}` (ProductsPage.tsx:63-66); the home page passes no setter | the catalog page shows its search input, so its search term can become non-empty | medium; not executed | `Navigation.SearchInputNeverShown` | `Navigation.CatalogSearchShownWhenIntended` |
| src/components/Footer.tsx:3 | `Footer` takes no props, so the `onCaseStudyClick` App.tsx:397 passes is dropped and no control calls `setShowCaseStudyPage(true)` | any sequence of clicks from the home page: the case-study page (App.tsx:78-80) never renders | the footer renders a link that opens the case-study page | high; not executed | `App.CaseStudyNeverOpens` | `App.CaseStudyTransition` |
| src/App.tsx:47-49 | `scrollToProducts` starts the catalog transition without resetting `selectedBrand`, which only `navigateToBrand` (line 52) ever writes | visit "BMW" from a brand tile, press back, then press "Vidi sve proizvode" (see all products, lines 281-284): the catalog opens filtered to BMW | "see all products" and "Proizvodi" open the catalog on every brand ("SVE") | medium; not executed | `App.AllProductsKeepsLastBrand` | `App.AllProductsAfterBrandVisit` |

As written, the catalog's search term therefore stays `""`. By
`ProductsPage.EmptySearchFiltersByBrandOnly`, the catalog then filters by
brand alone. The rest of the model follows the intended bar: there,
`ProductsPage.Page.SetSearchTerm` is reachable.

For the footer, `App.OfferedActions` lists the transitions that each view
offers. Its `footerCaseStudyLink` flag is `false` for the code as written and
`true` for the intended footer. The shell itself is unchanged, and
`App.Shell.SwitchCaseStudy(true)` is the transition that the intended link
starts.

For the products buttons, `App.Shell.ScrollToProducts` models the code as
written. `App.Shell.ShowAllProducts` is the intended handler, which first
resets the stored brand to `"SVE"`.
