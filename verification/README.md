# Storefront cart and catalogue engine, in Dafny

This project models the sequential logic of a buyer-facing farm-produce storefront. The
storefront itself is a React application. The model covers:

- the **cart engine** of the buyer dashboard: add to cart with merge by product, quantity
  update where 0 or less means removal, removal by line id, and the derived total and item
  count;
- the **product filter**: a conjunctive search / category / inclusive price-range filter,
  the category list, and the price bound `ceil(max price)` derived when the catalogue loads;
- the **dashboard state**: the cart and its copy in the browser's local storage;
- the **checkout workflow** of the cart panel: validation, then three remote writes (order,
  order items, bulk cart delete) that stop at the first failure, with no rollback. The
  quantity buttons are modelled too;
- the **price-range control**: a two-field state whose handlers keep the bounds half a
  unit apart;
- the **order-history view**: the buyer filter, the items map, the expansion toggle, and
  the status styles and icons;
- the **record types and the fixed demo catalogue**.

Money is held in integer cents, because every catalogue price has two decimals. Price-range
bounds are exact `real` dollars, and the filter compares `cents / 100` against them. All
operations are pure functions over immutable sequences.

Modules, one per source file plus helpers:

| module | file | models |
|---|---|---|
| `Records` | records.dfy | src/lib/supabase.ts |
| `CartEngine` | cart_engine.dfy | cart operations of src/components/BuyerDashboard.tsx |
| `ProductFilter` | product_filter.dfy | filter and categories of src/components/BuyerDashboard.tsx |
| `Dashboard` | dashboard.dfy | loading and local-storage state of src/components/BuyerDashboard.tsx |
| `CartPanel` | cart_panel.dfy | src/components/Cart.tsx |
| `PriceRange` | price_range.dfy | src/components/PriceRangeFilter.tsx |
| `OrderHistory` | order_history.dfy | src/components/OrderHistory.tsx |
| `Wrappers`, `Seqs`, `Text` | wrappers.dfy, seqs.dfy, text.dfy | `Option`/`Result`, order-preserving filter, JavaScript string operations |

## Where the code differs from the obvious intent

The model follows the code in each of these cases:

- The delivery address is checked trimmed, but it is stored exactly as typed
  (`CartPanel.OrderFor`).
- The range handlers do not clamp either bound to `[0, maxPrice]`. Only the separation of
  half a unit is enforced (`PriceRange.NoClampToSliderBounds`).
- Checkout deletes the buyer's rows in the remote cart table. The dashboard's own cart lives
  in local storage, and `onOrderComplete` reloads it from there. So after a successful
  checkout the dashboard still shows the ordered lines (`Dashboard.ReloadAfterMutationKeepsCart`).
  The model does not claim the local cart is empty after checkout.
- The order-history view reads orders from local storage, and maps every order to an
  empty item list. So its items panel is never drawn (`OrderHistory.ItemsPanelNeverShown`).
- Neither the cart nor checkout checks or decrements stock.

## Model

| member | source | states |
|---|---|---|
| Records.UnitPrice | src/components/BuyerDashboard.tsx:123 | a cart line's snapshot is optional (supabase.ts:15-21); a missing snapshot prices the line at 0, in the cart total here and in the order items' purchase price (Cart.tsx:63) |
| Records.CatalogueIdsDistinct | src/lib/supabase.ts:43-148 | the catalogue ids '1'..'8' are pairwise distinct |
| Records.CataloguePrices | src/lib/supabase.ts:48-139 | every catalogue price is positive and at most 4.99, and 4.99 occurs |
| Records.CatalogueStock | src/lib/supabase.ts:50-141 | every catalogue stock value is at least 35 |
| Records.CatalogueCategories | src/lib/supabase.ts:47-138 | only "vegetables" and "fruits" occur as categories |
| Records.CatalogueCategoryOrder | src/lib/supabase.ts:47-86 | "vegetables" comes first, and "fruits" first appears at the fourth product |
| CartEngine.FindProduct | src/components/BuyerDashboard.tsx:73-74 | lookup fails exactly when no product has the id; otherwise it returns the first product with that id, as `find` does |
| CartEngine.FindUnique | src/components/BuyerDashboard.tsx:73 | with distinct ids, looking up a product's id returns that product |
| CartEngine.AddToCart | src/components/BuyerDashboard.tsx:72-96 | an unknown id leaves the cart unchanged; a product already in the cart gets +1 on its line(s) with length, order and other lines unchanged; a new product gets one line appended with quantity 1, the buyer id and the catalogue snapshot |
| CartEngine.AddPreservesValid | src/components/BuyerDashboard.tsx:76-96 | adding keeps one line per product, positive quantities, and snapshots of the right product at the catalogue price |
| CartEngine.AddRaisesSums | src/components/BuyerDashboard.tsx:72-126 | adding a catalogue product to a valid cart raises the count by 1 and the total by its price; validity compares only ids and prices, so it holds for a cart restored from an earlier page load (see `Dashboard.RestoredCartStaysValid`) |
| CartEngine.AddTwiceMerges | src/components/BuyerDashboard.tsx:76-96 | adding the same product twice gives one new line of quantity 2, not two lines |
| CartEngine.UpdateCartQuantity | src/components/BuyerDashboard.tsx:102-114 | a quantity of 0 or less is exactly removal; a positive quantity replaces the quantity of the lines with that id, and length, order and other lines are unchanged |
| CartEngine.UpdateChangesSums | src/components/BuyerDashboard.tsx:102-126 | with distinct line ids, a positive update changes the total by the change in quantity times the line price, and the count by the change in quantity |
| CartEngine.UpdatePreservesValid | src/components/BuyerDashboard.tsx:102-114 | updating keeps the cart valid |
| CartEngine.RemoveFromCart | src/components/BuyerDashboard.tsx:116-120 | the result keeps exactly the lines whose id differs, each as many times as in the cart, as an order-preserving subsequence; an absent id changes nothing |
| CartEngine.RemoveOneLine | src/components/BuyerDashboard.tsx:116-126 | with distinct line ids, removal drops exactly that line and lowers total and count by its share |
| CartEngine.RemoveIdempotent | src/components/BuyerDashboard.tsx:116-120 | removing twice equals removing once |
| CartEngine.RemovePreservesValid | src/components/BuyerDashboard.tsx:116-120 | removing keeps the cart valid |
| CartEngine.SubsequenceKeepsValid | src/components/BuyerDashboard.tsx:116-120 | every order-preserving subsequence of a valid cart is valid |
| CartEngine.AddKeepsLineIds | src/components/BuyerDashboard.tsx:72-96 | adding keeps line ids distinct when the new line's id is not yet in the cart |
| CartEngine.UpdateKeepsLineIds | src/components/BuyerDashboard.tsx:102-114 | setting a quantity, or removing at 0 or less, keeps line ids distinct |
| CartEngine.RemoveKeepsLineIds | src/components/BuyerDashboard.tsx:116-120 | removing keeps line ids distinct |
| CartEngine.SubsequenceKeepsLineIds | src/components/BuyerDashboard.tsx:116-120 | every order-preserving subsequence of a cart with distinct line ids has distinct line ids |
| CartEngine.SumsOfConcat | src/components/BuyerDashboard.tsx:122-126 | total (Σ snapshot price × quantity) and count (Σ quantity) split over concatenation |
| CartEngine.SumsOfReplace | src/components/BuyerDashboard.tsx:122-126 | replacing one line changes total and count by exactly the difference of that line's share |
| CartEngine.SumsOfDelete | src/components/BuyerDashboard.tsx:122-126 | deleting one line lowers total and count by that line's share |
| CartEngine.SumsBounds | src/components/BuyerDashboard.tsx:122-126 | an empty cart has total and count 0; with no negative prices or quantities the total is not negative; with every quantity at least 1 the count is at least the number of lines |
| CartEngine.SumsFoldLeft | src/components/BuyerDashboard.tsx:122-126 | both sums equal the left-to-right `reduce`: the sum over all lines but the last, plus the last line's share |
| CartEngine.IncrementSums | src/components/BuyerDashboard.tsx:102-126 | with distinct line ids, asking for one more of a line adds its price to the total and 1 to the count |
| CartEngine.DecrementSums | src/components/BuyerDashboard.tsx:102-126 | with distinct line ids, asking for one less of a line of quantity at least 1 takes its price from the total and 1 from the count, including the removal at quantity 1 |
| CartEngine.LowerSums | src/components/BuyerDashboard.tsx:107-126 | the same for a line of quantity above 1, which is lowered rather than removed |
| CartEngine.SameLinesButQuantity | src/components/BuyerDashboard.tsx:80-84 | changing only quantities, to values of at least 1, keeps a cart valid |
| CartEngine.ValidIgnoresOtherFields | src/lib/supabase.ts:43-148 | validity depends on the catalogue only through its ids and prices, in order |
| ProductFilter.FilterProducts | src/components/BuyerDashboard.tsx:53-70 | keeps p iff (empty query, or lower-cased name/description contains the lower-cased query) and (category "all" or equal) and lo ≤ price ≤ hi, as an order-preserving subsequence equal to one filter by the conjunction |
| ProductFilter.StagesAreFilters | src/components/BuyerDashboard.tsx:56-65 | skipping the search stage on an empty query, or the category stage on "all", is the same as filtering by a test that is then true |
| ProductFilter.OnePass | src/components/BuyerDashboard.tsx:53-70 | the three stages in source order equal one filter by their conjunction |
| ProductFilter.StagesCommute | src/components/BuyerDashboard.tsx:53-70 | all six orders of the three stages give the same list |
| ProductFilter.ShowsEverything | src/components/BuyerDashboard.tsx:53-70 | with an empty query, "all", and a range covering every price, the filter returns the whole list |
| ProductFilter.SearchIgnoresCase | src/components/BuyerDashboard.tsx:56-61 | a query equal to a product's name up to ASCII case finds it, and so does the lower-cased query |
| ProductFilter.Distinct | src/components/BuyerDashboard.tsx:128 | the de-duplicated list has the same members, no repeats, and lists them in order of first occurrence, as `new Set` iterates |
| ProductFilter.Categories | src/components/BuyerDashboard.tsx:128 | the list starts with "all", then holds each product category once and nothing else, in order of first appearance |
| Dashboard.Initial | src/components/BuyerDashboard.tsx:14-24 | before mount: no products, an empty cart, the stored copy as found, the loading flag up and the range [0, bound] over the initial bound 10 |
| Dashboard.MaxCents | src/components/BuyerDashboard.tsx:39 | the maximum is a price of the list and bounds every price |
| Dashboard.CeilDollars | src/components/BuyerDashboard.tsx:40 | the least whole dollar amount not below the price |
| Dashboard.LoadProducts | src/components/BuyerDashboard.tsx:36-44 | after loading, every price is within the bound, the bound is less than one dollar above some price, and the range is [0, bound] |
| Dashboard.FetchProducts | src/components/BuyerDashboard.tsx:36-44 | the loaded list is the catalogue, the bound is 5 and the range [0, 5], and the cart and its stored copy are untouched |
| Dashboard.LoadedShowsAll | src/components/BuyerDashboard.tsx:36-44 | after loading, the unfiltered view is the whole catalogue |
| Dashboard.CatalogueCategoryList | src/components/BuyerDashboard.tsx:128 | the catalogue's category list is ["all", "vegetables", "fruits"] |
| Dashboard.TwoCategories | src/components/BuyerDashboard.tsx:128 | a list using only two categories, the first at positions 0 to 2 and the second at position 3, has the category list ["all", first, second] |
| Dashboard.Store | src/components/BuyerDashboard.tsx:98-99 | a mutation that gets this far sets the cart and writes the same list to local storage, and touches nothing else (an add of an unknown id returns before, see `Dashboard.Add`) |
| Dashboard.Add | src/components/BuyerDashboard.tsx:72-100 | an id missing from the catalogue leaves the whole state, local storage included, unchanged; otherwise the added-to cart is set and stored; products, range, bound and loading flag are untouched |
| Dashboard.Update | src/components/BuyerDashboard.tsx:102-114 | the updated cart is set and stored, also when the update is a removal; products, range, bound and loading flag are untouched |
| Dashboard.Remove | src/components/BuyerDashboard.tsx:116-120 | the filtered cart is set and stored; products, range, bound and loading flag are untouched |
| Dashboard.ReloadStableAfterMount | src/components/BuyerDashboard.tsx:27-51 | after the mount effects the stored cart is either absent or equal to the cart on screen, and add, update, remove and reload keep it so |
| Dashboard.FetchCartItems | src/components/BuyerDashboard.tsx:46-51 | a stored cart replaces the dashboard's cart and nothing else changes, so the checkout's completion callback leaves the price filter and loading flag alone; with nothing stored the state is unchanged |
| Dashboard.ReloadAfterMutationKeepsCart | src/components/BuyerDashboard.tsx:46-51 | from any state reachable after mount, reloading from local storage after add, update or remove (the checkout's completion callback) gives back the cart that operation left |
| Dashboard.OperationsKeepValid | src/components/BuyerDashboard.tsx:72-120 | every dashboard cart operation keeps the cart valid |
| Dashboard.OperationsKeepLineIds | src/components/BuyerDashboard.tsx:72-120 | every dashboard cart operation keeps line ids distinct, an add provided its clock-based id is not in use |
| Dashboard.OperationKeepsWellFormed | src/components/BuyerDashboard.tsx:72-120 | one operation keeps the cart valid with distinct line ids |
| Dashboard.RunKeepsWellFormed | src/components/BuyerDashboard.tsx:72-120 | any run of adds, updates and removes from such a cart, each add with a fresh line id, ends in one |
| Dashboard.Mounted | src/components/BuyerDashboard.tsx:27-51 | with nothing stored, the mounted dashboard holds the catalogue, an empty cart and nothing saved, with bound 5, range [0, 5] and the loading flag down |
| Dashboard.MountedWellFormed | src/components/BuyerDashboard.tsx:27-51 | the freshly mounted empty cart is valid with distinct line ids |
| Dashboard.MountedRunWellFormed | src/components/BuyerDashboard.tsx:27-120 | every cart built after a fresh mount is valid with distinct line ids, so the sum lemmas that need distinct line ids apply to it |
| Dashboard.RunUpdateChangesSums | src/components/BuyerDashboard.tsx:102-126 | on any such cart, a positive quantity update moves the total by the change times the line price and the count by the change |
| Dashboard.RestoredCartStaysValid | src/lib/supabase.ts:43-148 | a cart valid for an earlier page load's catalogue is valid for this one's: the catalogues differ only in their timestamps |
| CartPanel.OrderFor | src/components/Cart.tsx:47-53 | the order row has status "pending", the supplied total, the untrimmed address and the selected payment method |
| CartPanel.BuildItems | src/components/Cart.tsx:59-64 | one item per cart line, in cart order, with the order id, product id, quantity and snapshot price (0 if missing) |
| CartPanel.ItemsTotalIsCartTotal | src/components/Cart.tsx:59-64 | Σ price_at_purchase × quantity over the built items equals the cart total |
| CartPanel.HandleCheckout | src/components/Cart.tsx:31-89 | a blank address (checked first) or an empty cart aborts with no writes, no processing flag and no completion; otherwise the stop is tied to the replies: a failed order insert writes nothing, a failed items insert leaves just the order, a failed delete leaves order and items, and all three succeeding writes all three; the address reset, panel close and one completion happen only then; the flag is down at the end; exactly one alert names the outcome |
| CartPanel.Submit | src/components/Cart.tsx:44-88 | the three writes run in order, each only when the previous one succeeded, with no rollback; each stop is tied to the first failing reply |
| CartPanel.OrderTotalMatchesItems | src/components/Cart.tsx:49-64 | when the total comes from the dashboard, the order total equals the sum over its written items |
| CartPanel.ExampleCart | src/components/Cart.tsx:59-64 | a cart of 2 × 2.99 and 1 × 1.49 totals 7.47 |
| CartPanel.PlacedExample | src/components/Cart.tsx:31-89 | checking out that cart writes an order of 7.47, items priced 2.99 and 1.49, and the cart delete |
| CartPanel.PressMinus | src/components/Cart.tsx:145-150 | minus requests quantity − 1: at quantity 1 it removes the line; above 1 every line with that id is lowered to one less than the pressed line and the other lines are unchanged |
| CartPanel.PressPlus | src/components/Cart.tsx:152-157 | plus requests quantity + 1: every line with that id gets one more than the pressed line and the other lines are unchanged |
| CartPanel.ButtonsMoveSumsByOne | src/components/Cart.tsx:145-157 | with distinct line ids (every cart built after mount has them, `Dashboard.MountedRunWellFormed`) and any quantity of at least 1, plus and minus move the total by the line's price and the count by one; at quantity 1 minus removes the line |
| CartPanel.FreshPanelRefuses | src/components/Cart.tsx:27-35 | a freshly mounted panel (empty address, "cash") refuses checkout with the address alert and writes nothing |
| CartPanel.PlacedResetsPanel | src/components/Cart.tsx:27-81 | a placed order leaves the panel as a fresh, closed one, except that the chosen payment method is kept |
| Text.TrimEmptyIffBlank | src/components/Cart.tsx:32 | `trim()` of the address is empty exactly when every character is JavaScript white space |
| PriceRange.HandleMinChange | src/components/PriceRangeFilter.tsx:19-23 | the new min is min(v, max − 0.5), the max is unchanged, and the pair sent to the parent is the new local pair |
| PriceRange.HandleMaxChange | src/components/PriceRangeFilter.tsx:25-29 | the new max is max(v, min + 0.5), the min is unchanged, and the pair sent to the parent is the new local pair |
| PriceRange.HandlersKeepGap | src/components/PriceRangeFilter.tsx:19-29 | after either handler min ≤ max − 0.5, and a value already inside the bound passes through |
| PriceRange.HandlersIdempotent | src/components/PriceRangeFilter.tsx:19-29 | repeating a handler with the same value changes nothing |
| PriceRange.NoClampToSliderBounds | src/components/PriceRangeFilter.tsx:19-29 | a typed min below 0 and a typed max above the bound are kept unclamped |
| PriceRange.MinFieldValue | src/components/PriceRangeFilter.tsx:139 | min-field text that fails to parse becomes 0 |
| PriceRange.MaxFieldValue | src/components/PriceRangeFilter.tsx:157 | max-field text that fails to parse or parses to 0 becomes maxPrice |
| PriceRange.ReplayKeepsGap | src/components/PriceRangeFilter.tsx:14-29 | over any sequence of slider moves, field edits and separated incoming ranges, min ≤ max − 0.5 holds throughout |
| PriceRange.ResyncAfterHandlerIsStable | src/components/PriceRangeFilter.tsx:14-28 | the local pair resyncs to the incoming range, which after a handler is the pair it already holds |
| PriceRange.Step | src/components/PriceRangeFilter.tsx:14-157 | an incoming range replaces the local pair; a slider move goes through the handler with its value, and a field edit with that field's own fallback (0 for min, the bound for max); so any edit leaves min ≤ max − 0.5, a min edit keeps max and a max edit keeps min |
| OrderHistory.FetchOrders | src/components/OrderHistory.tsx:19-32 | the loaded orders are exactly the stored orders of this buyer, each as many times as stored, in stored order, and each maps to an empty item list |
| OrderHistory.ItemsPanelNeverShown | src/components/OrderHistory.tsx:25-28 | no loaded order ever shows its items panel, whatever is expanded |
| OrderHistory.ToggleExpansion | src/components/OrderHistory.tsx:34-42 | the toggled id's membership flips and no other id changes |
| OrderHistory.ToggleTwice | src/components/OrderHistory.tsx:34-42 | toggling twice restores the set |
| OrderHistory.StatusColorsDistinct | src/components/OrderHistory.tsx:58-70 | the four known statuses get four different styles, and gray is given exactly to unknown statuses |
| OrderHistory.StatusIcons | src/components/OrderHistory.tsx:44-56 | confirmed and delivered share an icon, the others differ, and the package icon marks exactly the unknown statuses |
| OrderHistory.ShortId | src/components/OrderHistory.tsx:116 | the header shows the first min(8, \|id\|) characters of the id |

## Left out

- Remote store calls, `localStorage` with its JSON encoding, and `setTimeout` delays. The
  store's answers to the checkout writes are the `Replies` parameter. Local storage is the
  `saved` field of `Dashboard`, and the JSON round trip is taken to be exact.
- Dashboard.RunKeepsWellFormed: assumes that the clock-based line id `cart_<milliseconds>` of each add is not already in the cart (`FreshIds`); two adds within the same millisecond would repeat one.
- Clocks: the clock-based id of a new cart line is the `freshId` parameter. The catalogue's
  `new Date().toISOString()` timestamps are the `now` parameter. Order dates are not modelled.
- React state batching and stale closures. For example, two rapid clicks both read an old
  cart. This is a concurrency matter, and the model treats every handler as running alone.
- JavaScript floating point, `toFixed` formatting, and the slider percentages, including
  the division by a zero `maxPrice`. Prices are exact cents and range bounds exact reals,
  so NaN cannot arise except as a failed parse of a number field, which is `None`.
- Text.Lower: lowers ASCII letters only; JavaScript's `toLowerCase` applies full Unicode case mapping.
- OrderHistory.ShortId: counts Unicode scalar values, while JavaScript's `slice` counts UTF-16 code units.
- Dashboard.MaxCents: requires a non-empty list. `Math.max()` of an empty list is -Infinity,
  but the loader only ever reads the fixed, non-empty catalogue.
- The status label's capitalisation, the alerts' wording beyond their identity, the console
  logging, and all layout and styling.
- src/components/BillingInfo.tsx (a thin wrapper over the remote profile table), and
  src/components/ProductGrid.tsx and src/components/Sidebar.tsx (presentation only).
- Authentication: the buyer id is a parameter everywhere.
