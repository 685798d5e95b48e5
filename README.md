# Clothing rental storefront — a verified Dafny model

This project models the logic of a clothing-rental web shop. The shop's parts are:

- a product catalogue;
- a shopping cart, whose lines carry an optional rental period, size and insurance;
- a wishlist;
- a rental-date calendar with minimum and maximum rental lengths and blocked ranges;
- a rental price summary with damage protection, a delivery fee and a one-time promo code;
- the cart drawer, checkout and payment pages;
- the browse screens: filter panel, product grid, search page, category page and wishlist page;
- three admin screens for inventory, products and rentals.

Each source file becomes one Dafny module:

- **Stores and stateful components** are classes. Their fields are the component's state, and each handler is a method with a `modifies` clause. A handler's `ensures` ties the new state to a pure function of the old one.
- **Computations** are functions. Lemmas prove what the application promises about them.

Conventions used throughout:

- **Time** is an integer count of milliseconds. `Days.DAY` is 86 400 000. The three day counts the source uses are defined once, in `days.dfy`, and the lemmas there relate them:
  - `Math.ceil` of the span;
  - `Math.floor` of the span plus one;
  - `differenceInDays`, which truncates toward zero.
- **Money** is an integer. `Math.round(x * p / 100)` is written as `(x * p + 50) / 100` with flooring division, which is exact for every integer `x`.
- **Random values, the clock and user events** are parameters: generated ids, stock figures, rental records, "now" and "today", and the clicks and keystrokes that drive the handlers.
- **Timer callbacks** become a separate completion method: the simulated payment, search delay and order placement.

Module map:

- `cart.dfy`: CartContext;
- `wishlist.dfy`: WishlistContext;
- `catalogue.dfy`: productData;
- `rental_calendar.dfy`, `rental_summary.dfy`: the booking components;
- `cart_drawer.dfy`, `checkout.dfy`, `payment.dfy`, `address_input.dfy`: the buying flow;
- `clothing_filters.dfy`, `clothing_grid.dfy`, `search_results.dfy`, `wishlist_page.dfy`, `category_view.dfy`: browsing;
- `inventory.dfy`, `product_management.dfy`, `rental_management.dfy`: the admin screens;
- `seqs.dfy`, `text.dfy`, `days.dfy`, `forms.dfy`, `wrappers.dfy`: shared helpers for `filter`/`reduce`, ASCII case mapping and `includes`, day counting, controlled forms, and `Option`.

## Model

| member | source | states |
|---|---|---|
| CartContext.FindLine | src/contexts/CartContext.tsx:38-43 | the index found is a line with the same id, size, start and end, with missing values equal to each other; `None` means that no line matches |
| CartContext.AddMergesIntoFirstMatch | src/contexts/CartContext.tsx:38-50 | adding an item that matches a line adds its quantity to the first matching line; the line count and every other line are unchanged |
| CartContext.AddAppendsNewLine | src/contexts/CartContext.tsx:51-54 | adding an item that matches no line appends it as the last line |
| CartContext.AddKeepsKeysUnique | src/contexts/CartContext.tsx:38-54 | if no two lines share the full key before `addItem`, none do after |
| CartContext.AddKeepsQuantitiesPositive | src/contexts/CartContext.tsx:35-57 | adding a positive quantity keeps every line's quantity positive |
| CartContext.AddItemCount | src/contexts/CartContext.tsx:35-57 | after `addItem`, `itemCount` grows by exactly the added quantity, whether the item merged or was appended |
| CartContext.AddSubtotal | src/contexts/CartContext.tsx:35-99 | after `addItem`, the subtotal grows by the added quantity times the days, priced at the merged line's price when a line matched |
| CartContext.AddSameKeyTwice | src/contexts/CartContext.tsx:35-57 | adding two items with the same key to a cart without that key leaves one line carrying the summed quantity |
| CartContext.AddDifferentKeyTwice | src/contexts/CartContext.tsx:35-57 | adding two new items with different keys appends both, in order |
| CartContext.RemoveDropsEveryMatch | src/contexts/CartContext.tsx:59-66 | `removeItem(id)` drops every line with that id, whatever its size or dates, and keeps the others in order as a sub-list; a cart without the id is unchanged |
| CartContext.RemoveSubtractsLines | src/contexts/CartContext.tsx:59-106 | after a removal, subtotal and item count drop by exactly the removed lines' share |
| CartContext.RemoveKeepsKeysUnique | src/contexts/CartContext.tsx:59-66 | removal keeps line keys unique |
| CartContext.SubsequenceKeepsKeysUnique | src/contexts/CartContext.tsx:59-66 | any sub-list of a cart with unique keys has unique keys |
| CartContext.UpdateNonPositiveRemoves | src/contexts/CartContext.tsx:69-73 | `updateItemQuantity(id, q)` with q ≤ 0 is exactly `removeItem(id)` |
| CartContext.SetQuantity | src/contexts/CartContext.tsx:75-79 | every line with the id gets quantity q; every other line, and every other field, is unchanged; the length is unchanged |
| CartContext.UpdatePositiveSetsEveryMatch | src/contexts/CartContext.tsx:75-79 | with q > 0 every line with the id has quantity q, other fields and lines are unchanged, and the line count is kept |
| CartContext.SetQuantityCount | src/contexts/CartContext.tsx:75-106 | after setting q, `itemCount` is the other lines' count plus q per line with the id |
| CartContext.UpdateKeepsKeysUnique | src/contexts/CartContext.tsx:69-80 | updating a quantity keeps line keys unique |
| CartContext.RemoveKeepsQuantitiesPositive | src/contexts/CartContext.tsx:59-66 | removing lines leaves every remaining line with at least one unit |
| CartContext.UpdateKeepsQuantitiesPositive | src/contexts/CartContext.tsx:69-80 | an update never stores a quantity below one: a non-positive request removes the lines, a positive one is stored |
| CartContext.EmptyCartTotals | src/contexts/CartContext.tsx:82-106 | the empty cart has item count 0 and subtotal 0 |
| CartContext.CartStore.constructor | src/contexts/CartContext.tsx:33 | the cart starts empty |
| CartContext.CartStore.AddItem | src/contexts/CartContext.tsx:35-57 | the new lines are `AddLine` of the old ones; item count grows by the quantity; unique keys and positive quantities are preserved |
| CartContext.CartStore.RemoveItem | src/contexts/CartContext.tsx:59-67 | the new lines are the old ones without the id; unique keys and positive quantities are preserved |
| CartContext.CartStore.UpdateItemQuantity | src/contexts/CartContext.tsx:69-80 | the new lines are `UpdateQuantity` of the old ones; unique keys and positive quantities are preserved |
| CartContext.CartStore.ClearCart | src/contexts/CartContext.tsx:82-85 | the cart is empty, with item count and subtotal 0 |
| WishlistContext.ItemCount | src/contexts/WishlistContext.tsx:73 | the count is zero exactly when the list is empty |
| WishlistContext.AddPresentIsNoOp | src/contexts/WishlistContext.tsx:36-38 | adding a present id leaves the list unchanged |
| WishlistContext.AddAbsentAppends | src/contexts/WishlistContext.tsx:39-46 | adding an absent id appends `{id}` at the end, whether or not the catalogue knows it; the count grows by one and the id is then present |
| WishlistContext.AddKeepsIdsUnique | src/contexts/WishlistContext.tsx:33-48 | `addItem` never introduces a duplicate id |
| WishlistContext.RemoveDropsId | src/contexts/WishlistContext.tsx:50-57 | `removeItem` leaves no entry with the id, keeps every other entry in order, and keeps ids unique |
| WishlistContext.AddThenRemove | src/contexts/WishlistContext.tsx:33-57 | removing an id just added restores the list |
| WishlistContext.WishlistStore.constructor | src/contexts/WishlistContext.tsx:23-26 | the store starts from the saved entries |
| WishlistContext.WishlistStore.AddItem | src/contexts/WishlistContext.tsx:33-48 | the new list is `AddId` of the old; the id is then present; unique ids are preserved |
| WishlistContext.WishlistStore.RemoveItem | src/contexts/WishlistContext.tsx:50-58 | the new list is `RemoveId` of the old; the id is then absent; unique ids are preserved |
| WishlistContext.WishlistStore.ClearWishlist | src/contexts/WishlistContext.tsx:64-67 | the list is empty and its count is 0 |
| ProductData.FindById | src/lib/productData.ts:132 | the result is the first product with the id; `None` exactly when no product has it |
| ProductData.GetProductById | src/lib/productData.ts:131-133 | a found product is in the catalogue and has the id; null means that no catalogue product has the id |
| ProductData.CatalogueIdsAre | src/lib/productData.ts:3-128 | the catalogue has twelve products with ids "1" to "12" in order |
| ProductData.CatalogueIdsDistinct | src/lib/productData.ts:3-128 | the catalogue ids are pairwise distinct |
| ProductData.FoundIsUnique | src/lib/productData.ts:131-133 | with distinct ids, a found product is the only one with that id |
| ProductData.GetProductByIdUnique | src/lib/productData.ts:131-133 | a product `getProductById` finds is the unique catalogue product with that id |
| ProductData.SliceEnd | src/lib/productData.ts:139 | the end index `slice(0, limit)` uses: the limit capped at the length, or counted from the end for a negative limit |
| ProductData.FirstRelatedSpec | src/lib/productData.ts:136-139 | related products never have the given id and have exactly the given category, compared case-sensitively; for a non-negative limit there are exactly min(limit, number of matches) of them; they are a prefix of all matches, in catalogue order |
| ProductData.DefaultRelatedAtMostFour | src/lib/productData.ts:136 | with the default limit, at most four products are returned |
| RentalCalendar.EmptyValid | src/components/booking/RentalCalendar.tsx:28-30 | the initial and reset states satisfy the calendar invariant, and reset reports two cleared dates |
| RentalCalendar.SelectKeepsValid | src/components/booking/RentalCalendar.tsx:34-88 | every `handleSelect` branch keeps the invariant: end-selection exactly when a start is set and no end is, and every completed range is ordered, of allowed inclusive length, with no blocked endpoint inside |
| RentalCalendar.SelectStartsNewRange | src/components/booking/RentalCalendar.tsx:38-47 | with no start, or both dates set, a date becomes the start, the end is cleared and end-selection begins |
| RentalCalendar.SelectEarlierMovesStart | src/components/booking/RentalCalendar.tsx:52-59 | while picking an end, an earlier date replaces the start and the end stays empty |
| RentalCalendar.SelectEndAcceptedIff | src/components/booking/RentalCalendar.tsx:62-86 | while picking an end, a date on or after the start is accepted as the end exactly when no blocked endpoint lies in the range and floor-days + 1 is within [min, max]; otherwise the state is unchanged and nothing is reported |
| RentalCalendar.SelectIdleIsNoOp | src/components/booking/RentalCalendar.tsx:35-50 | an undefined date, or a state with a start but not picking an end, changes nothing |
| RentalCalendar.SpanOfNDaysAccepted | src/components/booking/RentalCalendar.tsx:73-86 | an end n−1 whole days after the start, with min ≤ n ≤ max and no blocked endpoint, is accepted |
| RentalCalendar.CompletedRangeAvoidsBlockedDays | src/components/booking/RentalCalendar.tsx:62-70 | for well-formed blocked ranges and an unblocked start, no instant of a completed range is blocked |
| RentalCalendar.CoveringRangeNotDetected | src/components/booking/RentalCalendar.tsx:62-65 | a blocked range that begins before the start and ends after the chosen end is not detected: the range is accepted anyway |
| RentalCalendar.PastRuleIsEarlierDay | src/components/booking/RentalCalendar.tsx:90-98 | the past rule means "an earlier calendar day"; so today is unavailable only when inside a blocked range |
| RentalCalendar.EnabledEndPassesMaxCheck | src/components/booking/RentalCalendar.tsx:193-203 | every date the end picker enables is on or after the start, passes the maximum-length check of line 76, and is not unavailable |
| RentalCalendar.RentalCalendar.constructor | src/components/booking/RentalCalendar.tsx:22-30 | the calendar starts empty, with the given limits and blocked ranges, and valid |
| RentalCalendar.RentalCalendar.HandleSelect | src/components/booking/RentalCalendar.tsx:34-88 | the new state and the reported dates are those of `Select`, and the invariant is preserved |
| RentalCalendar.RentalCalendar.ResetDates | src/components/booking/RentalCalendar.tsx:114-122 | start, end and end-selection are cleared, and two undefined dates are reported |
| RentalSummary.RentalDays | src/components/booking/RentalSummary.tsx:47-49 | 0 when a date is missing; for a forward range, the whole days between the dates plus one |
| RentalSummary.RoundPercent | src/components/booking/RentalSummary.tsx:62-80 | the result is the integer nearest to x·p/100, with halves rounded up |
| RentalSummary.InsuranceCost | src/components/booking/RentalSummary.tsx:59-69 | "basic" gives round(5%), "premium" gives round(12%), anything else gives 0 |
| RentalSummary.ForwardRangeSubtotal | src/components/booking/RentalSummary.tsx:47-57 | for a forward range at a non-negative price, the subtotal is at least one day's rent plus delivery and lies between cost + 15 and twice the cost + 15 |
| RentalSummary.Figures | src/components/booking/RentalSummary.tsx:47-57 | days = `RentalDays` of the two dates; rental cost = daily price × days; insurance = `InsuranceCost` of the option on that cost; subtotal = cost + insurance + 15; discount is the stored one only when applied; total = subtotal − discount |
| RentalSummary.RentalDaysIsInclusive | src/components/booking/RentalSummary.tsx:47-49 | the summary's day count is the calendar's inclusive count, and on day-aligned dates it is the cart's rounded-up count plus one |
| RentalSummary.InsuranceWithinCost | src/components/booking/RentalSummary.tsx:59-69 | for a non-negative cost, insurance is between 0 and the cost |
| RentalSummary.InsuranceOnWholeHundreds | src/components/booking/RentalSummary.tsx:59-69 | on whole hundreds the percentages are exact, and "none" costs nothing |
| RentalSummary.NoDatesSubtotal | src/components/booking/RentalSummary.tsx:47-55 | without both dates the subtotal is the delivery fee alone |
| RentalSummary.ApplyPromoOutcome | src/components/booking/RentalSummary.tsx:77-86 | an accepted code sets the flag and stores round(20% of the current subtotal); a rejected one leaves flag and discount unchanged; both empty the field |
| RentalSummary.PromoAcceptedIgnoresCase | src/components/booking/RentalSummary.tsx:78 | the code is matched in any letter case and only as seven characters |
| RentalSummary.DiscountFrozen | src/components/booking/RentalSummary.tsx:44-80 | once applied, the discount comes from the subtotal at that moment, whatever the props become |
| RentalSummary.TotalCanGoNegative | src/components/booking/RentalSummary.tsx:56-57 | nothing clamps the total: clearing the dates after applying a code makes it negative |
| RentalSummary.ApplyTwiceIsOnce | src/components/booking/RentalSummary.tsx:77-86 | applying twice in a row equals applying once |
| RentalSummary.ReapplyRecomputes | src/components/booking/RentalSummary.tsx:77-86 | `applyPromoCode` ignores `promoApplied` and would recompute from the new subtotal; only the disabled controls prevent this |
| RentalSummary.AppliedDisablesControls | src/components/booking/RentalSummary.tsx:206-220 | after a successful apply, the input and the Apply button are disabled |
| RentalSummary.PromoOnHundred | src/components/booking/RentalSummary.tsx:56-80 | on a subtotal of 100 the discount is 20 and the total 80 |
| RentalSummary.SummaryCard.constructor | src/components/booking/RentalSummary.tsx:42-44 | the code is empty, nothing is applied, and the discount is 0 |
| RentalSummary.SummaryCard.SetPromoCode | src/components/booking/RentalSummary.tsx:206-212 | typing changes only the code field |
| RentalSummary.SummaryCard.ApplyPromoCode | src/components/booking/RentalSummary.tsx:77-86 | the promo state becomes `ApplyPromo` of the old one, against the subtotal shown |
| CartDrawer.CalculateDays | src/components/cart/CartDrawer.tsx:40-43 | 1 when a date is missing; otherwise the fewest whole days covering the span |
| CartDrawer.CalculateDaysIsLineDays | src/components/cart/CartDrawer.tsx:85-86 | the drawer's day count and line total are the cart's |
| CartDrawer.LineTotalsSumToSubtotal | src/components/cart/CartDrawer.tsx:85-86 | the line totals sum to `getSubtotal()` |
| CartDrawer.BadgeIffLines | src/components/cart/CartDrawer.tsx:50-54 | with positive quantities, the badge is shown exactly when the cart has lines, and the count is at least the line count |
| CartDrawer.DisplayedTotals | src/components/cart/CartDrawer.tsx:149-165 | insurance and delivery show 0, and the total equals `getSubtotal()` |
| CartDrawer.MinusOnSingleRemovesAllWithId | src/components/cart/CartDrawer.tsx:123-128 | minus on a quantity-1 line removes every line with that id |
| CartDrawer.PlusMinusSetEveryLineWithId | src/components/cart/CartDrawer.tsx:123-135 | plus sets quantity+1 on every line with the id; minus on quantity ≥ 2 sets quantity−1 on all of them |
| CartDrawer.Drawer.constructor | src/components/cart/CartDrawer.tsx:27-28 | the drawer starts closed, over the shared cart |
| CartDrawer.Drawer.SetOpen | src/components/cart/CartDrawer.tsx:46 | only the open flag changes |
| CartDrawer.Drawer.HandleCheckout | src/components/cart/CartDrawer.tsx:31-34 | the drawer closes and the cart is untouched |
| CartDrawer.Drawer.Minus | src/components/cart/CartDrawer.tsx:123-128 | the cart becomes `updateItemQuantity(id, quantity − 1)` of the pressed line |
| CartDrawer.Drawer.Plus | src/components/cart/CartDrawer.tsx:130-135 | the cart becomes `updateItemQuantity(id, quantity + 1)` of the pressed line |
| CartDrawer.Drawer.Remove | src/components/cart/CartDrawer.tsx:101-102 | the cart loses every line with the pressed line's id |
| Checkout.PageView | src/pages/Checkout.tsx:88-107 | the empty state is rendered exactly when the cart is empty |
| Checkout.ClickTab | src/pages/Checkout.tsx:124-133 | on "information" the disabled Payment tab cannot be chosen; on "payment" the clicked tab is taken |
| Checkout.PaymentOnlyBySubmitting | src/pages/Checkout.tsx:61-64 | no tab click leaves "information"; only submitting shipping reaches "payment" |
| Checkout.FreshFormSubmitsNothing | src/pages/Checkout.tsx:42-288 | on the untouched page, neither the shipping nor the payment form can be submitted |
| Checkout.SummaryTotalIsSubtotal | src/pages/Checkout.tsx:378-395 | the summary's line totals and its total equal `getSubtotal()`, with insurance and delivery shown as 0 |
| Checkout.CheckoutPage.constructor | src/pages/Checkout.tsx:36-54 | the page starts on "information", not submitting, with every field empty |
| Checkout.CheckoutPage.HandleChange | src/pages/Checkout.tsx:56-59 | only the named field changes |
| Checkout.CheckoutPage.HandleSubmitShipping | src/pages/Checkout.tsx:61-225 | the form is submitted exactly when it exists, on the "information" step of a page whose cart has lines, and the seven `required` shipping inputs all hold text; a submission moves to "payment", a refused one changes nothing |
| Checkout.CheckoutPage.SelectTab | src/pages/Checkout.tsx:124 | the step follows `ClickTab` |
| Checkout.CheckoutPage.HandleSubmitPayment | src/pages/Checkout.tsx:66-303 | the form is submitted exactly when it exists, on the "payment" step of a page whose cart has lines, no payment is processing (the button is disabled) and the four `required` card inputs hold text; a submission sets `isSubmitting` with an order pending, a refused one changes nothing |
| Checkout.CheckoutPage.CompletePayment | src/pages/Checkout.tsx:71-76 | a pending order clears the cart and resets `isSubmitting`; without one nothing changes |
| Forms.EmptyForm | src/pages/Checkout.tsx:42-54 | every named input is present and empty, and there are no others |
| Forms.ChangeField | src/pages/Payment.tsx:42-45 | the named input takes the value; every other input keeps its text; no other input appears |
| Forms.EmptyFormNotFilled | src/pages/Checkout.tsx:144-153 | a freshly rendered form with a `required` input cannot be submitted |
| Forms.ChangeFillsField | src/pages/Checkout.tsx:56-59 | typing text into the one empty required input makes the form submittable |
| PaymentPage.PageAmounts | src/pages/Payment.tsx:76-78 | shipping is 0, and total = subtotal + shipping = `getSubtotal()` |
| PaymentPage.NonCardMethodsAlwaysPass | src/pages/Payment.tsx:51-64 | cash on delivery and net banking pass whatever the fields hold |
| PaymentPage.OnlyEmptinessChecked | src/pages/Payment.tsx:51-64 | with every field non-empty, any method passes; format is never checked |
| PaymentPage.CardMethodNeedsEveryCardField | src/pages/Payment.tsx:52-57 | a card method with any of the four card fields empty fails |
| PaymentPage.FreshFormPassesIffNoCheck | src/pages/Payment.tsx:34-64 | on the untouched form, a method passes exactly when it is cash on delivery or net banking |
| PaymentPage.PaymentForm.constructor | src/pages/Payment.tsx:15-40 | the method starts as "cash_on_delivery", with every field empty and nothing submitting |
| PaymentPage.PaymentForm.SetPaymentMethod | src/pages/Payment.tsx:16 | only the method changes |
| PaymentPage.PaymentForm.HandleChange | src/pages/Payment.tsx:42-45 | only the named field changes |
| PaymentPage.PaymentForm.HandleSubmit | src/pages/Payment.tsx:47-244 | while a payment is processing, the disabled button blocks submission and nothing changes; otherwise the payment is accepted exactly when validation passes; an accepted one is submitting and pending; a rejected one resets `isSubmitting` and leaves the cart alone |
| PaymentPage.PaymentForm.CompleteOrder | src/pages/Payment.tsx:67-72 | only a pending, accepted order clears the cart |
| ClothingFilters.Put | src/components/clothing/ClothingFilters.tsx:121-179 | replacing one list leaves the other four and the price range unchanged |
| ClothingFilters.ActiveFilterCount | src/components/clothing/ClothingFilters.tsx:113-119 | the count is non-negative, and 0 exactly when all lists are empty and neither price bound narrows the range; a `NaN` bound never narrows it |
| ClothingFilters.ToggleSpec | src/components/clothing/ClothingFilters.tsx:121-179 | an absent value is appended; a present value loses every occurrence; other lists and the price range are untouched |
| ClothingFilters.ToggleTwiceRestores | src/components/clothing/ClothingFilters.tsx:121-131 | toggling an absent value twice restores the list |
| ClothingFilters.ToggleKeepsNoDuplicates | src/components/clothing/ClothingFilters.tsx:121-179 | a duplicate-free list stays duplicate-free |
| ClothingFilters.RemoveSingleOccurrence | src/components/clothing/ClothingFilters.tsx:125 | in a duplicate-free list, filtering a present value out removes exactly one entry |
| ClothingFilters.ToggleCount | src/components/clothing/ClothingFilters.tsx:113-179 | on a duplicate-free list, a toggle moves the badge count by exactly one, up or down |
| ClothingFilters.RemoveFilterSpec | src/components/clothing/ClothingFilters.tsx:207-217 | the value leaves only the named list; the price range is never changed, and removing a "priceRange" value changes nothing |
| ClothingFilters.ClearedCountIsZero | src/components/clothing/ClothingFilters.tsx:188-197 | after clearing, the count is 0 |
| ClothingFilters.ResetPriceRangeSpec | src/components/clothing/ClothingFilters.tsx:220-225 | the lists are kept and the count drops to the list lengths alone |
| ClothingFilters.PriceChangeStoresAsGiven | src/components/clothing/ClothingFilters.tsx:181-186 | both bounds are stored as given, `NaN` included, with no ordering or clamping; the lists are kept; a reversed pair inside the bounds still counts as active |
| ClothingFilters.ClearedBoxNotCounted | src/components/clothing/ClothingFilters.tsx:360-386 | clearing the upper price box stores `NaN`, which drops the price filter from the count while the range is no longer [0, 500] |
| ClothingFilters.FilterPanel.constructor | src/components/clothing/ClothingFilters.tsx:99-110 | empty lists, range [0, 500], sort "recommended", mobile panel closed |
| ClothingFilters.FilterPanel.HandleToggle | src/components/clothing/ClothingFilters.tsx:121-179 | the filters become `Toggle` of the old; a duplicate-free list stays so |
| ClothingFilters.FilterPanel.HandleRemoveFilter | src/components/clothing/ClothingFilters.tsx:207-217 | the filters become `RemoveFilter` of the old |
| ClothingFilters.FilterPanel.HandlePriceChange | src/components/clothing/ClothingFilters.tsx:181-186 | the filters become `PriceChange` of the old |
| ClothingFilters.FilterPanel.HandleClearFilters | src/components/clothing/ClothingFilters.tsx:188-197 | the filters are the initial ones and the count is 0 |
| ClothingFilters.FilterPanel.HandleResetPriceRange | src/components/clothing/ClothingFilters.tsx:220-225 | the filters become `ResetPriceRange` of the old |
| ClothingFilters.FilterPanel.HandleApplyFilters | src/components/clothing/ClothingFilters.tsx:199-204 | the current filters are reported unchanged and the mobile panel closes |
| ClothingFilters.FilterPanel.SetMobileFiltersOpen | src/components/clothing/ClothingFilters.tsx:462-465 | the sheet opens or closes; the filters and sort option are unchanged |
| ClothingFilters.FilterPanel.SetSortOption | src/components/clothing/ClothingFilters.tsx:404-405 | only the sort option changes |
| ClothingGrid.GridIdsAre | src/components/clothing/ClothingGrid.tsx:6-125 | the grid's own list has twelve items with ids "1" to "12" |
| ClothingGrid.NoCategoryShowsAll | src/components/clothing/ClothingGrid.tsx:136 | without a category, or with an empty one, all twelve local items are shown in order |
| ClothingGrid.CategoryFilterSpec | src/components/clothing/ClothingGrid.tsx:138-142 | with a category, exactly the items whose category equals it ignoring case are shown, in order |
| ClothingGrid.CategoryCaseIgnored | src/components/clothing/ClothingGrid.tsx:138-142 | categories that differ only in letter case show the same items |
| ClothingGrid.OtherPropsIgnored | src/components/clothing/ClothingGrid.tsx:127-142 | the `filters` and `searchQuery` props never change the view |
| ClothingGrid.View | src/components/clothing/ClothingGrid.tsx:132-172 | the skeleton is never shown; "No items found" appears exactly when no item is displayed; otherwise the cards are the displayed items |
| SearchResults.ResultsSpec | src/components/clothing/SearchResults.tsx:29-42 | for a non-empty query the `results` state, counted in "N items found", holds the matching items (name, brand or category contains it, ignoring case); results are always a sub-list of the catalogue |
| SearchResults.EmptyQueryShowsEverything | src/components/clothing/SearchResults.tsx:40-42 | the empty query shows the whole catalogue, as filtering by it would |
| SearchResults.QueryCaseIgnored | src/components/clothing/SearchResults.tsx:29-34 | queries that differ only in letter case give the same results |
| SearchResults.BlankNeverSubmitted | src/components/clothing/SearchResults.tsx:60 | an empty or all-blank box keeps the button disabled |
| SearchResults.SubmittedTextNonEmpty | src/components/clothing/SearchResults.tsx:19-60 | submitted text is never empty, so after a submission only the initial empty query can show the whole catalogue |
| SearchResults.SearchPage.constructor | src/components/clothing/SearchResults.tsx:13-17 | both texts start as the initial query, the results as the whole catalogue, and a non-empty initial query starts a search |
| SearchResults.SearchPage.SetSearchQuery | src/components/clothing/SearchResults.tsx:50-56 | only the typed text changes |
| SearchResults.SearchPage.QueryEffect | src/components/clothing/SearchResults.tsx:24-43 | a non-empty query starts a pending search; an empty one resets the results to the catalogue |
| SearchResults.SearchPage.HandleSearch | src/components/clothing/SearchResults.tsx:19-60 | submission happens exactly when the box holds a non-blank character; a refused submission changes nothing; a submitted query is the typed text, never empty, and starts a search when it changed |
| SearchResults.SearchPage.CompleteSearch | src/components/clothing/SearchResults.tsx:28-37 | a pending search sets the results to the matching catalogue items and stops searching |
| WishlistPage.Join | src/pages/Wishlist.tsx:17-22 | there are never more displayed products than entries |
| WishlistPage.JoinIsLookupOfKnown | src/pages/Wishlist.tsx:15-25 | the displayed items are, in wishlist order, the catalogue lookups of exactly the entries the catalogue knows |
| WishlistPage.UnknownEntriesDropped | src/pages/Wishlist.tsx:17-22 | entries without a catalogue product are dropped |
| WishlistPage.AllKnownShowsEveryEntry | src/pages/Wishlist.tsx:15-25 | with every entry known, one product is shown per entry with matching ids |
| WishlistPage.SavedCountBelowEntriesWhenUnknown | src/pages/Wishlist.tsx:37 | one unknown entry makes "N items saved" smaller than the store's count |
| WishlistPage.WishlistView.constructor | src/pages/Wishlist.tsx:12-13 | the page starts with no joined items |
| WishlistPage.WishlistView.Refresh | src/pages/Wishlist.tsx:15-25 | the joined items are those of the store's current entries |
| WishlistPage.WishlistView.ClearAll | src/pages/Wishlist.tsx:41-50 | offered only while items are displayed; it empties the store |
| CategoryView.FormatCategoryName | src/pages/CategoryView.tsx:24-27 | undefined or "" gives ""; otherwise the first character is upper-cased, the rest is unchanged, and the length is kept |
| CategoryView.FormatIdempotent | src/pages/CategoryView.tsx:24-27 | formatting twice equals formatting once |
| CategoryView.FormatKeepsCapitalised | src/pages/CategoryView.tsx:26 | a name not starting with a lower-case letter is shown unchanged |
| CategoryView.HeadingAgreesWithSubtitle | src/pages/CategoryView.tsx:36-38 | the heading lower-cased is the subtitle's `category.toLowerCase()` |
| CategoryView.GridAgreesWithHeading | src/pages/CategoryView.tsx:36-44 | the grid shows the same items for the heading text as for the route parameter |
| InventoryManagement.ToggleSort | src/components/admin/InventoryManagement.tsx:30-37 | on the current field the direction flips; on another field that field is chosen, ascending |
| InventoryManagement.ToggleTwiceRestores | src/components/admin/InventoryManagement.tsx:30-32 | toggling the current field twice restores the sort state |
| InventoryManagement.SortRows | src/components/admin/InventoryManagement.tsx:44-57 | the sorted rows are a permutation of the input |
| InventoryManagement.SortRowsSorted | src/components/admin/InventoryManagement.tsx:44-57 | the sorted rows are ordered by the comparator's key |
| InventoryManagement.TableRowsMatch | src/components/admin/InventoryManagement.tsx:39-43 | the table rows are, as a multiset, exactly the rows whose name, brand or category contains the term ignoring case |
| InventoryManagement.TableRowsOrdered | src/components/admin/InventoryManagement.tsx:44-58 | for a numeric field the rows are ascending or descending in that field |
| InventoryManagement.LowStockCount | src/components/admin/InventoryManagement.tsx:60 | the low-stock count never exceeds the number of rows |
| InventoryManagement.RentedIsTotalMinusAvailable | src/components/admin/InventoryManagement.tsx:61-62 | rented = total stock − total available |
| InventoryManagement.RentedCanBeNegative | src/components/admin/InventoryManagement.tsx:21-24 | a row with more available than in stock, which generation allows, makes the rented figure negative |
| InventoryManagement.RentedNonNegative | src/components/admin/InventoryManagement.tsx:62 | when no row has more available than in stock, rented is non-negative |
| InventoryManagement.UpdateStock | src/components/admin/InventoryManagement.tsx:64-69 | rows with the id get the new stock, nothing else changes, and the length is kept |
| InventoryManagement.UpdateStockTotal | src/components/admin/InventoryManagement.tsx:61-69 | with one row carrying the id, the total moves by exactly the difference |
| InventoryManagement.InventoryPage.constructor | src/components/admin/InventoryManagement.tsx:19-28 | the page starts from the given rows, an empty search and sort by name ascending |
| InventoryManagement.InventoryPage.SetSearchTerm | src/components/admin/InventoryManagement.tsx:123-124 | only the search term changes |
| InventoryManagement.InventoryPage.HandleToggleSort | src/components/admin/InventoryManagement.tsx:30-37 | the sort state becomes `ToggleSort` of the old |
| InventoryManagement.InventoryPage.OnStockInput | src/components/admin/InventoryManagement.tsx:210-215 | `updateStock` runs only for a parsed, non-negative value; otherwise nothing changes |
| ProductManagement.SchemaIssues | src/components/admin/ProductManagement.tsx:22-30 | a field is reported exactly when its rule fails (name ≥ 2, brand and category non-empty, prices positive, description ≥ 10); no report means the schema accepts |
| ProductManagement.DefaultFormFailsEveryRule | src/components/admin/ProductManagement.tsx:46-54 | the empty form fails all six rules |
| ProductManagement.AddAppendsNewProduct | src/components/admin/ProductManagement.tsx:63-77 | one product is appended, carrying the form values, the fresh id and `isNew`; existing products are unchanged |
| ProductManagement.AddKeepsIdsDistinct | src/components/admin/ProductManagement.tsx:63-77 | with a fresh id, ids stay distinct |
| ProductManagement.DeleteUndoesAdd | src/components/admin/ProductManagement.tsx:63-111 | deleting the product just added restores the list |
| ProductManagement.EditAll | src/components/admin/ProductManagement.tsx:87-100 | products with the id get the seven form fields; others are unchanged; the length is kept |
| ProductManagement.EditKeepsIds | src/components/admin/ProductManagement.tsx:83-102 | editing keeps every id and `isNew`, and so keeps ids distinct; without a current product nothing changes |
| ProductManagement.EditIdempotent | src/components/admin/ProductManagement.tsx:83-102 | saving the same values twice equals saving them once |
| ProductManagement.DeleteSpec | src/components/admin/ProductManagement.tsx:107-111 | every product with the id is removed; the rest are kept in order |
| ProductManagement.VisibleSpec | src/components/admin/ProductManagement.tsx:57-61 | the empty term shows all products; otherwise exactly the matching ones, in order |
| ProductManagement.Prefill | src/components/admin/ProductManagement.tsx:114-124 | a missing description is pre-filled as "" |
| ProductManagement.SavePrefilledUnchanged | src/components/admin/ProductManagement.tsx:83-124 | saving the pre-filled form unedited changes nothing, except that a missing description becomes "" |
| ProductManagement.ProductAdmin.constructor | src/components/admin/ProductManagement.tsx:38-55 | the page starts from the catalogue, with an empty search, no current product, the default form as both form and reset target, and both dialogs closed |
| ProductManagement.ProductAdmin.SetSearchTerm | src/components/admin/ProductManagement.tsx:42 | only the search term changes |
| ProductManagement.ProductAdmin.SetAddDialogOpen | src/components/admin/ProductManagement.tsx:132 | only the add dialog's flag changes |
| ProductManagement.ProductAdmin.SetFormValues | src/components/admin/ProductManagement.tsx:144-240 | typing into the dialog's inputs sets only the form's current values; the reset target and everything else are kept |
| ProductManagement.ProductAdmin.SubmitAdd | src/components/admin/ProductManagement.tsx:63-81 | the schema gates the add of the form's current values; on success the product is appended, the dialog closes and the form resets to its defaults, which are the empty form or the form of the product last opened for editing; otherwise nothing changes |
| ProductManagement.ProductAdmin.OpenEditDialog | src/components/admin/ProductManagement.tsx:114-126 | the product becomes current, the form is pre-filled and those values become the reset target, and the edit dialog opens |
| ProductManagement.ProductAdmin.SubmitEdit | src/components/admin/ProductManagement.tsx:83-105 | the schema gates the edit with the form's current values, which without a current product does nothing; otherwise products are rewritten and the dialog closes |
| ProductManagement.ProductAdmin.DeleteItem | src/components/admin/ProductManagement.tsx:107-112 | the products become those without the id |
| RentalManagement.MakeRental | src/components/admin/RentalManagement.tsx:37-48 | duration is the whole days between the dates, rounded down, and total price is duration × daily price |
| RentalManagement.WholeDaysDuration | src/components/admin/RentalManagement.tsx:33-47 | an end n whole days after the start gives duration n and price n × price |
| RentalManagement.MadeRentalPriceNonNegative | src/components/admin/RentalManagement.tsx:45-47 | forward dates and a non-negative price give a non-negative total price |
| RentalManagement.FilteredSpec | src/components/admin/RentalManagement.tsx:58-73 | the table lists exactly the rentals passing the search, status and date filters, in original order |
| RentalManagement.NoFiltersShowAll | src/components/admin/RentalManagement.tsx:58-73 | an empty term, "all" and no date show every rental |
| RentalManagement.StatusNarrows | src/components/admin/RentalManagement.tsx:66 | any particular status shows a sub-list of what "all" shows |
| RentalManagement.UpcomingAtMostActive | src/components/admin/RentalManagement.tsx:76-82 | upcoming returns never outnumber active rentals |
| RentalManagement.UpcomingWindowInclusive | src/components/admin/RentalManagement.tsx:78-82 | the three-day window includes both ends, now and now + 3 days |
| RentalManagement.RevenueSplitsByActivity | src/components/admin/RentalManagement.tsx:77 | revenue is the active rentals' revenue plus the others' |
| RentalManagement.RevenueNonNegative | src/components/admin/RentalManagement.tsx:77 | with non-negative prices, revenue is non-negative |
| AddressInput.FindDefault | src/components/checkout/AddressInput.tsx:17 | the first address marked default, or `None` when no address is |
| AddressInput.FindAddress | src/components/checkout/AddressInput.tsx:39 | the first saved address with the id, or `None` when there is none |
| AddressInput.InitialSelectionSpec | src/components/checkout/AddressInput.tsx:16-18 | nothing is selected exactly when nothing is saved; otherwise the id of the first default address, else the first saved address's id, is selected |
| AddressInput.AddressPicker.constructor | src/components/checkout/AddressInput.tsx:16-28 | initial selection as above; the form is shown exactly when nothing is saved; the new address is empty |
| AddressInput.AddressPicker.HandleChange | src/components/checkout/AddressInput.tsx:30-33 | only the named field of the new address changes |
| AddressInput.AddressPicker.HandleSelectAddress | src/components/checkout/AddressInput.tsx:35-41 | the id is recorded, the form hidden, and the saved address with that id reported, or null |
| AddressInput.AddressPicker.HandleNewAddressClick | src/components/checkout/AddressInput.tsx:43-47 | the selection is cleared, the form shown, and null reported |
| AddressInput.AddressPicker.HandleSubmit | src/components/checkout/AddressInput.tsx:49-181 | the typed fields are reported exactly when the form is shown and its six `required` inputs hold text; otherwise nothing is reported; the picker's state is unchanged |
| Days.CeilVersusFloor | src/contexts/CartContext.tsx:92-94 | the rounded-up day count is the rounded-down one, plus one unless the span is whole days |
| Days.DifferenceIsFloorForward | src/components/booking/RentalSummary.tsx:48 | for forward spans `differenceInDays` is the rounded-down day count |

## Left out

- Toasts, console output, navigation and the page redirects, including Payment's redirect when shipping details are missing. They change no modelled state.
- Persisting the wishlist to browser storage. Reading it is modelled as the store's constructor argument.
- Timers. Each `setTimeout` callback is a separate completion method. A cleared timer is modelled by the completion never being called.
- Randomness: product ids, inventory stock figures and the generated rentals are inputs.
- The two clocks, "now" and "today", are parameters.
- Floating-point money, the admin form's `step="0.01"` prices and `formatCurrency`'s locale formatting. Money is integral.
- Date formatting, and time zones or daylight saving inside date-fns. A day is a fixed 86 400 000 ms, and calendar days are `t / DAY`.
- Reversed ranges given to `isWithinInterval`, which date-fns rejects. The model treats such an interval as empty.
- Case mapping is ASCII-only, and `trim()` recognises only ASCII white space. JavaScript's full Unicode behaviour is not modelled, so characters such as "ß", which upper-cases to two characters, are outside the model.
- ProductManagement.SchemaIssues: text lengths, as in zod's `min(n)` rules, are counted in Unicode scalar values, whereas JavaScript's `length` counts UTF-16 code units. Names or descriptions containing characters outside the Basic Multilingual Plane, such as emoji, are therefore outside the model: a one-emoji name has length 2 in JavaScript and passes `min(2)`, but has length 1 here.
- The mutation through a shared object at src/contexts/CartContext.tsx:48, and its effect when the state updater runs twice. The model builds the updated line as a new value.
- `handleInsuranceChange` and RentalSummary's `handleCheckout`. They only forward to a callback or show a toast.
- The loading flag of the category page. It is set and cleared by a timer but never read when rendering.
- Presentation: images, badges, class names and the ClothingCard discount badge.
- InventoryManagement.TableRows: the order for text sort fields (the default "name", and "category") is not modelled, because it comes from `localeCompare`. Those rows keep their filtered order.
- InventoryManagement.TableRowsOrdered: a stable sort also keeps ties in their filtered order. Only sortedness and permutation are proved.
- The inventory screen's percentage display and `toFixed` formatting.
- ProductManagement.SchemaIssues: zod's `url()` check on the image field is not modelled. Its coercion of the price fields to numbers is also left out, because the form values are integers already.
- The stock input's `parseInt`. The parsed value, or none for NaN, is the handler's input.
- The price boxes' `parseInt`. The parsed number, or `NaN`, is the input of `ClothingFilters.PriceChange`. Which text parses to which number is not modelled.
- HandleSubmitShipping (Checkout.CheckoutPage.HandleSubmitShipping): the browser's format check on the `type="email"` input is not modelled. Only the seven required inputs being non-empty gates the submission.
- Browser form checks apart from `required`, such as the input types, and the mouse-versus-Enter difference in how a form is submitted. A submission is modelled as one event.
- ProductManagement.ProductAdmin.SubmitAdd: the reset target follows the form library's `reset` rule, in which `reset(values)` makes the values the new defaults. That library is not part of this model.
- Places where the code differs from what its own interface or text suggests. The model follows the code:
  - `removeItem` and `updateItemQuantity` act on every line with the id. The drawer's remove and quantity buttons at src/components/cart/CartDrawer.tsx:101-135, drawn once per line (keyed by id, size and start date at line 89), suggest that they act on that line alone.
  - `handleRemoveFilter` accepts the key "priceRange", as its type `keyof FiltersState` at src/components/clothing/ClothingFilters.tsx:207 allows, but changes nothing for it.
  - ClothingGrid declares the props `filters` and `searchQuery` at src/components/clothing/ClothingGrid.tsx:121-125, but ignores them and shows its own twelve-item list, which differs from the catalogue.
  - The search page passes `items={results}` to the grid at src/components/clothing/SearchResults.tsx:83, but the grid declares no such prop. So the cards it shows are always the grid's own twelve items, and `SearchResults.ResultsSpec` describes the `results` state and the count built from it, not the cards.
  - The calendar's "Rental period: 3-14 days" text at src/components/booking/RentalCalendar.tsx:232-235 counts days as floor-days + 1. So a range is accepted as 3 days even when only two full days separate the dates.
