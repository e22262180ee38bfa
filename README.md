# Jewellery storefront: a verified model

This project models the logic of a React jewellery storefront: the customer
pages of its shop and the screens of its admin panel. Each source component
corresponds to one Dafny module.

- **The cart and wishlist stores** (`CartStore`, `WishlistStore`):
  - adding a product to the cart, including a negative quantity;
  - removing a product and changing its quantity;
  - the cart's total and item count;
  - the wishlist, whose key is `id || _id`.
- **The cart page** (`CartPage`):
  - selecting items;
  - the selected total;
  - "buy", which moves the selected lines to the payment page and drops them from the cart.
- **The wishlist page** (`WishlistPage`): "move to cart" and "remove".
- **The catalog pages** (`Catalog`: `Products`, `Ring`, `Necklace`, `Bracelets`):
  - the category filter and the three price bands;
  - the three stable sorts;
  - the reset to page 1, and 8 products per page;
  - the wishlist heart, the cart buttons and "buy now".
- **Search** (`Search`): the trimmed, case-insensitive search over the three collections.
- **Registration** (`Register`):
  - the field checks, with the exact email pattern and the error messages;
  - the duplicate-email check.
- **Payment** (`Payment`):
  - the page's reading of its navigation state;
  - placing an order.
- **The admin route guard** (`Route`).
- **The admin screens**:
  - `OrdersAdmin`: orders, their status updates, search and statistics;
  - `UsersAdmin`:
    - patching, blocking and deleting users, with a `localStorage` fallback;
    - sorting;
    - initials, avatar colour and total spent;
  - `ProductsAdmin`:
    - the normalisation of the three collections and the sample data;
    - the edit and add form, delete, search and statistics;
  - `Dashboard`:
    - the dashboard figures and the five newest orders and users;
    - the category breakdown and the stock colours;
  - `Analytics`:
    - time windows and category counts;
    - the five most popular categories, with the revenue the program credits each (the total of the orders holding an item labelled exactly with that name);
    - beside it, the corrected revenue, which credits the "unknown" bucket too;
    - the last six months of revenue and of user growth.

Shared modules:

- `Js` models the JavaScript primitives the code relies on:
  - `||` on strings and numbers;
  - ASCII `toLowerCase` and `toUpperCase`;
  - `trim` and `includes`;
  - `split` and `join`;
  - `slice` with negative indices;
  - `padStart`.
- `Records` holds the record shapes.
- `Seqs` holds `filter`, `reduce` and counting, with their laws.
- `Sorting` holds a stable sort, which matches what `Array.prototype.sort` does in current engines:
  - specified as an insertion sort on sequences;
  - implemented in place on an array;
  - proved sorted, a permutation, stable, and the identity on an already sorted input.

Stateful components become classes:

- A React state variable, a context value, or the `localStorage` copy a component reads and writes becomes a field.
- Each handler becomes a method whose `ensures` gives the new state as a function of the old one.
- Properties of those functions are proved as lemmas.

The model leaves the network out. A fetch becomes a parameter:

- an `Option` that is `None` when the request fails;
- or a `serverOk` flag;
- or the answer itself, such as `emailTaken`.

`now`, the start of the week and month windows, and the calendar reading of a timestamp are parameters too.

## Model

| member | source | states |
|---|---|---|
| CartStore.Added | src/context/CartContext.jsx:18-31 | an existing line has its quantity increased by the added amount and every other line is unchanged; otherwise the product is appended with that quantity; afterwards the product is in the cart, and ids stay unique |
| CartStore.AddedSums | src/context/CartContext.jsx:18-31 | adding `q` of a product raises the item count by `q` and the total by `offerPrice * q` (for a product already in the cart, the price of the line it joins) |
| CartStore.AddedKeepsNonPositiveLine | src/context/CartContext.jsx:20-26 | adding `-1` to a line of quantity 1 leaves a line of quantity 0 in the cart, not removed, and adding `-1` again gives -1 |
| CartStore.AddedToSingle | src/context/CartContext.jsx:20-26 | adding `b` to a line of quantity `a` gives a single line of quantity `a + b` |
| CartStore.AddedRepeatedly | src/context/CartContext.jsx:18-31 | adding one product repeatedly to an empty cart gives a single line whose quantity is the sum of the quantities added |
| CartStore.Removed | src/context/CartContext.jsx:34-36 | afterwards no line has the id, the result is a subsequence of the cart, every line with another id survives, and unique ids and positive quantities are kept |
| CartStore.RemovedUnique | src/context/CartContext.jsx:34-36 | filtering out an id keeps ids unique |
| CartStore.RemovedAbsent | src/context/CartContext.jsx:34-36 | removing an id that is not in the cart changes nothing |
| CartStore.Requantified | src/context/CartContext.jsx:41-43 | every line with the id gets exactly the new quantity, the rest keep theirs, and the length is unchanged |
| CartStore.RequantifiedPositive | src/context/CartContext.jsx:39-44 | a new quantity of at least 1 keeps every quantity positive |
| CartStore.EmptyCartSums | src/context/CartContext.jsx:47-53 | an empty cart has total 0 and count 0 |
| CartStore.TotalOf | src/context/CartContext.jsx:47-50 | `cartTotal`: 0 for an empty cart, and never negative while no price or quantity is |
| CartStore.CountOf | src/context/CartContext.jsx:53 | `cartCount`: 0 for an empty cart, and at least one per line while every quantity is positive |
| CartStore.Cart.constructor | src/context/CartContext.jsx:6-10 | the cart starts from the saved lines |
| CartStore.Cart.AddToCart | src/context/CartContext.jsx:18-31 | the new lines are `Added(old lines, product, quantity)` |
| CartStore.Cart.RemoveFromCart | src/context/CartContext.jsx:34-36 | the new lines are `Removed(old lines, id)` |
| CartStore.Cart.UpdateQuantity | src/context/CartContext.jsx:39-44 | a quantity below 1 changes nothing; otherwise the lines are `Requantified` |
| CartStore.Cart.CartTotal | src/context/CartContext.jsx:47-50 | the `cartTotal` of the current lines |
| CartStore.Cart.CartCount | src/context/CartContext.jsx:53 | the `cartCount` of the current lines |
| WishlistStore.Key | src/context/WishlistContext.jsx:26-27 | the key is `id` when present, else `_id` |
| WishlistStore.Added | src/context/WishlistContext.jsx:25-36 | a product whose key is listed leaves the list unchanged; otherwise it is appended; afterwards the key is listed, and keys stay unique |
| WishlistStore.Removed | src/context/WishlistContext.jsx:38-42 | afterwards the key is not listed, the result is a subsequence, every other item survives, and unique keys are kept |
| WishlistStore.RemovedUnique | src/context/WishlistContext.jsx:40 | filtering out a key keeps keys unique |
| WishlistStore.RemovedIdempotent | src/context/WishlistContext.jsx:38-42 | removing a key twice is the same as removing it once |
| WishlistStore.RemovedAbsent | src/context/WishlistContext.jsx:38-42 | removing an unlisted key changes nothing |
| WishlistStore.AddAllUnique | src/context/WishlistContext.jsx:25-36 | any number of additions keeps keys unique |
| WishlistStore.AddAllListed | src/context/WishlistContext.jsx:25-36 | after any number of additions every added key is listed, and the list grew by at most the number of additions |
| WishlistStore.Wishlist.constructor | src/context/WishlistContext.jsx:8-19 | the wishlist starts from the saved items |
| WishlistStore.Wishlist.AddToWishlist | src/context/WishlistContext.jsx:25-36 | the new items are `Added(old items, product)` |
| WishlistStore.Wishlist.RemoveFromWishlist | src/context/WishlistContext.jsx:38-42 | the new items are `Removed(old items, key)` |
| WishlistStore.Wishlist.IsInWishlist | src/context/WishlistContext.jsx:50-51 | some item's key (its `id`, else `_id`) is the given one; it holds after `AddToWishlist` of that item and fails after `RemoveFromWishlist` of that key (the `Listed` clauses of WishlistStore.Added and WishlistStore.Removed) |
| CartPage.Toggled | src/Pages/CartPage.jsx:19-23 | a selected id is deselected (the list shrinks); an unselected id is appended; no other id changes membership |
| CartPage.ToggledTwice | src/Pages/CartPage.jsx:19-23 | toggling twice restores the membership of every id |
| CartPage.SelectedLines | src/Pages/CartPage.jsx:29 | exactly the cart lines whose id is selected, in cart order |
| CartPage.SelectedTotalBounds | src/Pages/CartPage.jsx:29-33 | with nothing selected the total is 0; with every line selected it is the cart total |
| CartPage.RemovedAllIsFilter | src/Pages/CartPage.jsx:47 | removing the selected ids one at a time is the same as one filter of the cart |
| CartPage.BuySplitsCart | src/Pages/CartPage.jsx:41-48 | the purchased total plus the total of what remains in the cart equals the old cart total |
| CartPage.BuyLeavesNoSelected | src/Pages/CartPage.jsx:47 | after buying, no selected id is left in the cart |
| CartPage.CartView.constructor | src/Pages/CartPage.jsx:7 | the page starts with nothing selected |
| CartPage.CartView.ToggleSelect | src/Pages/CartPage.jsx:19-23 | the selection becomes `Toggled(old selection, id)` |
| CartPage.CartView.HandleBuy | src/Pages/CartPage.jsx:35-50 | with nothing selected, no navigation and nothing changes; otherwise it navigates with the selected lines and their total, drops them from the cart, and clears the selection |
| CartPage.CartView.Decrease | src/Pages/CartPage.jsx:81-83 | a quantity of 1 or less leaves the cart unchanged (the button is disabled); otherwise the line's quantity becomes one less, and quantities stay positive |
| CartPage.CartView.Increase | src/Pages/CartPage.jsx:89 | the line's quantity becomes one more, and quantities stay positive |
| CartPage.RequantifiedPositiveWhen | src/context/CartContext.jsx:40-43 | the guard `quantity < 1` is exactly what keeps cart quantities positive |
| WishlistPage.WishlistView.MoveToCart | src/Pages/WishlistPage.jsx:24-28 | the item is added to the cart with quantity 1 and removed from the wishlist under its key |
| WishlistPage.WishlistView.RemoveClicked | src/Pages/WishlistPage.jsx:61-63 | the item is removed under `id \|\| _id`; the extra name argument has no effect |
| WishlistPage.MoveEffect | src/Pages/WishlistPage.jsx:24-28 | after a move the key is gone from the wishlist, which shrank if the key was listed; the cart holds the item, and its count rose by one |
| Catalog.BandsPartition | src/Pages/Products.jsx:64-68 | every price falls in exactly one of the three bands |
| Catalog.FilteredSpec | src/Pages/Products.jsx:58-68 | the filtered list is exactly the products passing the category filter (Products page only) and the band, in the original order |
| Catalog.NameKey | src/Pages/Products.jsx:73 | the sort key is `name`, else `title` on `Products` and `""` on the collection pages (src/Pages/Ring.jsx:56) |
| Catalog.ComparatorPreorder | src/Pages/Products.jsx:71-73 | every sort option is a total preorder, so the sort is well defined |
| Catalog.ListingSpec | src/Pages/Products.jsx:57-81 | the listing is a permutation of the filtered products; it is unchanged for "default"; it is ascending or descending by price or by name as chosen, and stable: products the chosen comparator ties keep their filtered order |
| Sorting.SortStable | src/Pages/Products.jsx:71-73 | the sort is stable: the elements the comparator ties with any given one come out in their input order |
| Catalog.ApplyFilters | src/Pages/Products.jsx:58-75 | computes the listing: `temp` is rebound through the filters and then sorted in place |
| Catalog.TotalPages | src/Pages/Products.jsx:93 | `ceil(n / 8)`: the fewest pages of 8 that hold `n` products |
| Catalog.PageBounds | src/Pages/Products.jsx:90-92 | page `p` holds at most 8 products, namely products `8(p-1)` up to `8p`; it is non-empty up to the last page and empty past it |
| Catalog.CatalogView.CurrentProducts | src/Pages/Products.jsx:90-92 | the current page of the shown list: at most 8 products, and none past the last page |
| Catalog.PagesPrefix | src/Pages/Products.jsx:90-93 | the first `k` pages together are the listing's first `8k` products |
| Catalog.PagesCoverListing | src/Pages/Products.jsx:90-93 | all pages together are exactly the listing |
| Catalog.IsInCart | src/Pages/Products.jsx:108 | true exactly when some cart line has the id |
| Catalog.WishlistClickToggles | src/Pages/Products.jsx:96-105 | a click adds an unlisted product and removes a shown one; two clicks restore whether it is shown |
| Catalog.NotShownAfterRemove | src/Pages/Products.jsx:98-99 | after a remove the heart is off |
| Catalog.BuyNowSnapshot | src/Pages/Ring.jsx:75-84 | "buy now" carries exactly id, name, offer price, image and description |
| Catalog.CatalogView.constructor | src/Pages/Products.jsx:14-26 | Products starts from the saved filter, range, sort and page (defaults "all", "all", "default", 1); the collection pages start from the defaults |
| Catalog.CatalogView.Refilter | src/Pages/Products.jsx:57-81 | the shown list becomes the listing; the page resets to 1 except on the first run of `Products` |
| Catalog.CatalogView.Change | src/Pages/Ring.jsx:40-59 | a change of products, category, range or sort re-runs the effect, with the same page rule |
| Catalog.CatalogView.GoToPage | src/Pages/Products.jsx:24-26 | only the current page changes |
| Catalog.CatalogView.AddClicked | src/Pages/Products.jsx:240-249 | the cart becomes `Added(cart, item, 1)` |
| Catalog.CatalogView.MinusClicked | src/Pages/Products.jsx:229 | the cart becomes `Added(cart, item, -1)`, with no lower bound |
| Catalog.CatalogView.WishlistClick | src/Pages/Products.jsx:97-105 | the wishlist becomes the toggled list |
| Catalog.MountThenLoad | src/Pages/Products.jsx:37-81 | a saved page is lost once the fetch arrives: the second run of the effect resets it to 1 |
| Search.Data | src/Pages/SearchPage.jsx:34-37 | a failed collection contributes no products |
| Search.SearchedName | src/Pages/SearchPage.jsx:41 | the searched name is `name`, else `title`, else "" |
| Search.Results | src/Pages/SearchPage.jsx:14-21 | a blank query (after trim) gives no results |
| Search.ResultsSpec | src/Pages/SearchPage.jsx:26-43 | the results are exactly the ring, bracelet and necklace products, in that order, whose lower-cased name contains the lower-cased trimmed query |
| Js.Trim | src/Pages/SearchPage.jsx:14 | the result has no whitespace at either end, is a contiguous piece of the input, and is empty exactly when the input is all whitespace (ECMAScript's set, with no-break space and byte-order mark) |
| Search.LowerTrim | src/Pages/SearchPage.jsx:14 | lower-casing commutes with trimming |
| Search.CaseInsensitive | src/Pages/SearchPage.jsx:40-43 | two queries equal up to case give the same results |
| Register.EmailValidSpec | src/Pages/Register.jsx:23 | the checker accepts exactly `^[^ ]+@[^ ]+\.[a-z]{2,3}$` |
| Register.EmailExamples | src/Pages/Register.jsx:23 | sample addresses accepted and rejected by the pattern |
| Register.PasswordError | src/Pages/Register.jsx:29-33 | "required" when empty, "8+ chars" when shorter, "uppercase" when the first letter is lower case, and none otherwise |
| Register.Validate | src/Pages/Register.jsx:21-41 | every field's error message under its key exactly when that field fails; valid exactly when there are no errors |
| Register.HandleSubmit | src/Pages/Register.jsx:43-60 | an invalid form stops; a taken email stops; otherwise the user is registered with name, email and password |
| Payment.InitialForm | src/Pages/PaymentPage.jsx:11-17 | four empty fields and cash on delivery |
| Payment.ItemsAsWritten | src/Pages/PaymentPage.jsx:9 | no state means no items; a cart purchase has its items; a "buy now" state has no `items` field |
| Payment.ViewAsWrittenCases | src/Pages/PaymentPage.jsx:9-58 | as written: "no items" without state or with an empty purchase, a form for a purchase, and a crash for "buy now" |
| Payment.SnapshotLine | src/Pages/Ring.jsx:76-82 | a "buy now" snapshot becomes one line of quantity 1 with the snapshot's fields |
| Payment.Arrival | src/Pages/Ring.jsx:83 | the items and total each navigation state should bring |
| Payment.ViewSpec | src/Pages/PaymentPage.jsx:9-58 | corrected: never a crash; agrees with the page as written wherever that does not crash; "buy now" shows a form for the one product at its offer price |
| Payment.HandlePayment | src/Pages/PaymentPage.jsx:24-56 | a missing field stops the payment; no stored user requires login; otherwise a pending order is placed with the user's email and name, the items and the total |
| Payment.PaymentMethodIgnored | src/Pages/PaymentPage.jsx:39-46 | the chosen payment method never reaches the order |
| Route.Lookup | src/components/ProtectedRoute.jsx:6-8 | the stored `user` wins over `currentUser` |
| Route.Decide | src/components/ProtectedRoute.jsx:6-24 | login exactly without either user; access exactly for a role equal to "admin" ignoring case; home otherwise |
| Route.RoleCaseInsensitive | src/components/ProtectedRoute.jsx:17 | changing the case of a role never changes the decision |
| Route.RoleExamples | src/components/ProtectedRoute.jsx:17 | "Admin" and "ADMIN" are admitted; "" and "administrator" are not |
| Route.UserTakesPrecedence | src/components/ProtectedRoute.jsx:6-8 | with a stored user, `currentUser` does not matter |
| OrdersAdmin.WithStatus | src/Admin/OrdersManagement.jsx:84-88 | orders with the id get the new status; all others are unchanged |
| OrdersAdmin.WithStatusSpec | src/Admin/OrdersManagement.jsx:84-88 | the update is idempotent and touches only the status field |
| OrdersAdmin.FilteredOrdersSpec | src/Admin/OrdersManagement.jsx:123-134 | the list is exactly the orders matching search and status, newest first; with no filters it is a permutation of all orders |
| OrdersAdmin.StatsSpec | src/Admin/OrdersManagement.jsx:136-156 | the five status counts add up to at most the total, and the revenue is the sum over completed orders |
| OrdersAdmin.OrdersView.OrdersStatsNow | src/Admin/OrdersManagement.jsx:136-158 | the statistics of the orders currently shown, with the bounds of OrdersAdmin.StatsSpec |
| OrdersAdmin.UpdateKeepsTotal | src/Admin/OrdersManagement.jsx:84-88 | a status update keeps the order count, never lowers the new status's count, and never raises another status's count |
| OrdersAdmin.ItemCountSpec | src/Admin/OrdersManagement.jsx:384 | no items count 0; with no negative quantities, the count is at least the number of items |
| OrdersAdmin.LineTotal | src/Admin/OrdersManagement.jsx:567-570 | price (else the offer price) times quantity (else 1) |
| OrdersAdmin.RowId | src/Admin/OrdersManagement.jsx:381-383 | no row without an id; otherwise the first 8 characters in upper case |
| OrdersAdmin.OrdersView.constructor | src/Admin/OrdersManagement.jsx:5 | the view starts empty over the stored copy |
| OrdersAdmin.OrdersView.FetchOrders | src/Admin/OrdersManagement.jsx:47-79 | a server answer is shown and stored; without one, the stored copy is shown |
| OrdersAdmin.OrdersView.UpdateOrderStatus | src/Admin/OrdersManagement.jsx:81-113 | the shown list and the stored copy both get the new status, whatever the server answered |
| UsersAdmin.Merged | src/Admin/UsersManagement.jsx:104-108 | a patch sets exactly the blocked or active flag |
| UsersAdmin.PatchedSpec | src/Admin/UsersManagement.jsx:104-108 | patching is idempotent, touches only users with the id, and sets the patched flag |
| UsersAdmin.Toggle | src/Admin/UsersManagement.jsx:158-173 | the new flag is the negation of the current flag's truthiness |
| UsersAdmin.ToggleFlips | src/Admin/UsersManagement.jsx:158-190 | toggling blocked or active flips that user's flag |
| UsersAdmin.DeletedSpec | src/Admin/UsersManagement.jsx:126-128 | afterwards no user has the id, all others survive in order, and an absent id changes nothing |
| UsersAdmin.ComparatorPreorder | src/Admin/UsersManagement.jsx:143-155 | every sort option is a total preorder |
| UsersAdmin.FilteredUsersMembers | src/Admin/UsersManagement.jsx:133-142 | the list is a permutation of the users matching search and role |
| UsersAdmin.FilteredUsersOrder | src/Admin/UsersManagement.jsx:143-156 | the list is sorted by the chosen key; an unknown option keeps the filter order |
| UsersAdmin.RecentFirst | src/Admin/UsersManagement.jsx:151-152 | "recent" lists newer users first |
| UsersAdmin.StatsSpec | src/Admin/UsersManagement.jsx:216-224 | active plus blocked is at most the total, and so is admins plus regular users |
| UsersAdmin.HeadsSplit | src/Admin/UsersManagement.jsx:435-440 | the first letters of the `split(' ')` words are the characters that follow a space (or open the name) |
| UsersAdmin.Initials | src/Admin/UsersManagement.jsx:433-441 | at most two characters; "UU" for an empty name |
| UsersAdmin.InitialsSpec | src/Admin/UsersManagement.jsx:435-440 | the initials are the first two word starts, upper-cased; a name not starting with a space starts with its own first letter |
| UsersAdmin.InitialsTwoWords | src/Admin/UsersManagement.jsx:433-441 | two space-free words give the upper-cased first letters of both |
| UsersAdmin.InitialsThreeWords | src/Admin/UsersManagement.jsx:433-441 | three space-free words give the upper-cased first letters of the first two only |
| UsersAdmin.ColorIndex | src/Admin/UsersManagement.jsx:443-455 | no colour for the empty string; otherwise one of six colours |
| UsersAdmin.ColorByFirstChar | src/Admin/UsersManagement.jsx:443-455 | the colour depends on the first character alone |
| UsersAdmin.TotalSpentSpec | src/Admin/UsersManagement.jsx:457-463 | total spent is additive over order lists, 0 without the user's orders, and non-negative for non-negative totals |
| UsersAdmin.UsersView.constructor | src/Admin/UsersManagement.jsx:5-27 | the view starts empty over the stored copy |
| UsersAdmin.UsersView.FetchUsers | src/Admin/UsersManagement.jsx:62-83 | shows the server's list, else the stored copy |
| UsersAdmin.UsersView.UpdateUser | src/Admin/UsersManagement.jsx:86-111 | the stored copy is patched only when the server fails |
| UsersAdmin.UsersView.ToggleUserBlock | src/Admin/UsersManagement.jsx:158-173 | unconfirmed changes nothing; confirmed flips the shown flag, and the stored flag only when the server fails |
| UsersAdmin.UsersView.ToggleUserActive | src/Admin/UsersManagement.jsx:175-190 | the same, for the active flag |
| UsersAdmin.UsersView.DeleteUser | src/Admin/UsersManagement.jsx:192-209 | unconfirmed changes nothing; confirmed deletes from the list, deletes from the stored copy when the server fails, and closes that user's detail view |
| ProductsAdmin.SplitLastPiece | src/Admin/ProductsManagement.jsx:64 | the last `/` piece of `s + "/" + c` is `c` |
| ProductsAdmin.CategoryOfEndpoint | src/Admin/ProductsManagement.jsx:64 | a collection's endpoint yields that collection as the category |
| ProductsAdmin.Normalized | src/Admin/ProductsManagement.jsx:63-76 | sets the category from the endpoint and each of price, image, description, metal and stock to its fallback field when empty, leaving the rest alone |
| ProductsAdmin.NormalizedAll | src/Admin/ProductsManagement.jsx:63-76 | every product of a collection is normalised |
| ProductsAdmin.CombinedSpec | src/Admin/ProductsManagement.jsx:46-76 | the combined list has the rings, then the necklaces, then the bracelets, each labelled with its category |
| ProductsAdmin.SampleProducts | src/Admin/ProductsManagement.jsx:102-144 | three active sample products, one per category, created now |
| ProductsAdmin.SampleStats | src/Admin/ProductsManagement.jsx:300-308 | the sample data's statistics are 3 products, one per category, all active |
| ProductsAdmin.EmptyForm | src/Admin/ProductsManagement.jsx:248-257 | the empty form: blank fields and category "ring" |
| ProductsAdmin.FormOf | src/Admin/ProductsManagement.jsx:260-272 | the edit form holds the product's fields, with category "ring" when it has none |
| ProductsAdmin.EditRoundTrip | src/Admin/ProductsManagement.jsx:221-232 | saving an unchanged edit form gives the product back (category defaulted to "ring") |
| ProductsAdmin.Edited | src/Admin/ProductsManagement.jsx:221-232 | the product with the id is merged with the form; the others are unchanged |
| ProductsAdmin.EditedSpec | src/Admin/ProductsManagement.jsx:221-232 | an edit keeps id, creation time and active flag |
| ProductsAdmin.NewProduct | src/Admin/ProductsManagement.jsx:234-245 | a new product is the form with a fresh id, active, and created now |
| ProductsAdmin.DeletedSpec | src/Admin/ProductsManagement.jsx:274-284 | exactly the products with other ids survive, in order |
| ProductsAdmin.FilteredProductsSpec | src/Admin/ProductsManagement.jsx:206-216 | the list is a permutation of the products matching search and category, newest first |
| ProductsAdmin.StatsSpec | src/Admin/ProductsManagement.jsx:300-308 | the category counts add up to at most the total, and exactly to it when every category is one of the three |
| ProductsAdmin.ProductsView.constructor | src/Admin/ProductsManagement.jsx:5-18 | the view starts empty, with an empty form and no product being edited |
| ProductsAdmin.ProductsView.Persist | src/Admin/ProductsManagement.jsx:182-186 | a non-empty list is written to the stored copy |
| ProductsAdmin.ProductsView.FetchProducts | src/Admin/ProductsManagement.jsx:40-99 | with server answers, the normalised combination; else the stored copy; else the sample products; afterwards the stored copy equals the list shown, even an empty successful answer |
| ProductsAdmin.ProductsView.HandleSubmit | src/Admin/ProductsManagement.jsx:218-258 | editing merges the form into that product; adding appends a new product; the form is reset |
| ProductsAdmin.ProductsView.StartEdit | src/Admin/ProductsManagement.jsx:260-272 | the form holds the product and its id is remembered |
| ProductsAdmin.ProductsView.CancelEdit | src/Admin/ProductsManagement.jsx:286-298 | the form is reset and nothing is being edited |
| ProductsAdmin.ProductsView.HandleDelete | src/Admin/ProductsManagement.jsx:274-284 | confirmed deletes the product and stores the remaining list when it is non-empty; unconfirmed, or when the delete empties the list, the stored copy is unchanged |
| Dashboard.StatusCountsBound | src/Admin/DashboardHome.jsx:649-651 | pending (including status-less), completed and cancelled add up to at most the orders |
| Dashboard.OutOfStockIsLow | src/Admin/DashboardHome.jsx:276-278 | every out-of-stock product counts as low stock |
| Dashboard.ActiveUsersCompared | src/Admin/DashboardHome.jsx:653-655 | the dashboard's active count is at least the users page's, and a user with neither flag set is active on the dashboard but not on the users page |
| Dashboard.RevenueCompared | src/Admin/DashboardHome.jsx:648 | the dashboard's revenue (all orders) is at least the orders page's (completed only), for non-negative totals |
| Dashboard.RevenueBelowTotal | src/Admin/DashboardHome.jsx:648 | completed revenue never exceeds the sum of all totals, for non-negative totals |
| Dashboard.NewestSpec | src/Admin/DashboardHome.jsx:658-665 | the five newest, newest first, taken from the input, none older than one left out |
| Dashboard.GroupsPartition | src/Admin/DashboardHome.jsx:846-849 | ring, necklace, bracelets and "other" together hold every product |
| Dashboard.ItemIdsSpec | src/Admin/DashboardHome.jsx:842-844 | an order contributes exactly the ids of its items |
| Dashboard.OrderedIdsSpec | src/Admin/DashboardHome.jsx:842-844 | the ordered ids are exactly the non-empty ids some order refers to |
| Dashboard.Entry | src/Admin/DashboardHome.jsx:852-878 | a category's ordered count is at most its product count |
| Dashboard.CategoryDataSpec | src/Admin/DashboardHome.jsx:836-889 | the four category totals add up to the product count |
| Dashboard.StockColorOf | src/Admin/DashboardHome.jsx:280-284 | red at 0, yellow below 10, green otherwise |
| Dashboard.StockColorAgrees | src/Admin/DashboardHome.jsx:276-284 | not green exactly when low stock; red exactly when out of stock |
| Dashboard.DisplayId | src/Admin/DashboardHome.jsx:386-390 | "N/A" without an id; otherwise the first 8 characters |
| Dashboard.DashboardView.constructor | src/Admin/DashboardHome.jsx:571-584 | all figures start at 0 |
| Dashboard.DashboardView.LoadDashboardData | src/Admin/DashboardHome.jsx:640-690 | the figures, recent orders and recent users are those of the loaded data |
| Analytics.BumpedSpec | src/Admin/Analytics.jsx:96 | `count[k] = (count[k] \|\| 0) + w` adds `w` under `k` only; the sum grows by `w`; keys stay unique |
| Analytics.TallyOfSpec | src/Admin/Analytics.jsx:92-98 | each key's count is the weight fed under it; the counts sum to the total weight; keys are unique and exactly those fed |
| Analytics.ByTimeRangeSpec | src/Admin/Analytics.jsx:135-155 | "week" and "month" keep exactly the items since the window start, in order; any other range keeps everything |
| Analytics.AverageOrderValue | src/Admin/Analytics.jsx:89 | 0 without orders; otherwise the value times the number of orders is the revenue |
| Analytics.CategoryEntriesSpec | src/Admin/Analytics.jsx:93-97 | one entry per item, and a category is fed exactly when some item falls in it (blank category as "unknown") |
| Analytics.CountCategories | src/Admin/Analytics.jsx:92-98 | the nested loops build the category tally |
| Analytics.CategoryTallySpec | src/Admin/Analytics.jsx:92-98 | the counts add up to the number of items, and the keys are unique and exactly the categories bought |
| Analytics.UnknownRevenueAsWritten | src/Admin/Analytics.jsx:104-106 | as written: any order whose only line is one uncategorised product counts 1 under "unknown" but earns that bucket 0 revenue, while the intended revenue is the order's total |
| Analytics.RevenueCredited | src/Admin/Analytics.jsx:100-107 | corrected: with positive totals, every listed category earns positive revenue |
| Analytics.RevenueAgrees | src/Admin/Analytics.jsx:104-106 | the corrected revenue equals the written one for every real category name |
| Analytics.PopularCategoriesSpec | src/Admin/Analytics.jsx:100-109 | as the program computes it: at most five rows, by count descending, each a bucket of the tally whose revenue is the total of the orders with an item labelled exactly with its name; no left-out category counts more |
| Analytics.PopularCategoriesIntendedSpec | src/Admin/Analytics.jsx:92-109 | corrected: each row is a bucket of the tally with the total of the orders that fed that bucket; with positive totals every row has positive revenue |
| Analytics.PopularRankingAgrees | src/Admin/Analytics.jsx:100-109 | the written and the corrected rows have the same categories and counts in the same order, and the same revenue for every category other than "unknown" |
| Analytics.PopularUnknownAsWritten | src/Admin/Analytics.jsx:95-109 | as written: an order whose only line is an uncategorised product yields the one row ("unknown", 1, 0); corrected, its revenue is the order total |
| Analytics.MonthKey | src/Admin/Analytics.jsx:162 | `year + "-" + month padded to 2` |
| Analytics.MonthKeyExamples | src/Admin/Analytics.jsx:162 | January and December of year 7 give "7-01" and "7-12" |
| Analytics.GroupByMonth | src/Admin/Analytics.jsx:157-169 | the loop builds the month tally |
| Analytics.MonthlySums | src/Admin/Analytics.jsx:157-169 | the monthly amounts add up to the total of all orders |
| Analytics.LastSixSpec | src/Admin/Analytics.jsx:171-174 | the last six months in key order, taken from the tally; every dropped month comes before every kept one |
| Analytics.UserGrowthCounts | src/Admin/Analytics.jsx:177-189 | the monthly user counts add up to the number of users |
| Analytics.ProcessAnalyticsData | src/Admin/Analytics.jsx:79-133 | each report field is computed from the time-filtered orders and users; user growth counts all users; popular categories carry the revenue as written; monthly revenue is grouped from the orders after the recent-orders sort |

## Left out

- Network I/O: every `axios`/`fetch` call is a parameter of the model (an `Option` that is `None` on failure, a `serverOk` flag, or `emailTaken`). Posting the new user, posting the order (src/context/OrderContext.jsx), and the Login and order-history pages are not part of this model; the navigation they trigger is modelled only where it carries state.
- `localStorage`: it is a field (the stored copy) where a component reads it back. The UI-preference keys written at src/Pages/Products.jsx:84-87, the stored user written on registration, and the JSON parsing are not modelled.
- Dates and clocks: timestamps are abstract integers; `new Date()`, `toLocaleString`, the week and month window starts and the calendar reading of a timestamp are parameters, and the `lastLogin` fallback of src/Admin/Analytics.jsx:152 is not modelled.
- Numbers are integers: `parseFloat`, `parseInt`, `Number(...)`, `toFixed`, `NaN` and string-valued prices are not modelled; the admin forms' price and stock fields are integers rather than strings.
- `localeCompare` is modelled as code-point order on strings, and `toLowerCase`/`toUpperCase` as ASCII case mapping.
- Strings are sequences of Unicode code points, while JavaScript indexes UTF-16 code units; the members below differ from the source only for characters outside the Basic Multilingual Plane (an emoji, say), where JavaScript sees the two halves of a surrogate pair:
- UsersAdmin.ColorIndex: `charCodeAt(0)` of such a character is its high surrogate, not its code point, so the colour index can differ.
- UsersAdmin.Initials: `word[0]` of a word starting with such a character is half of it.
- Dashboard.DisplayId: `slice(0, 8)` counts code units, so an id with such characters keeps fewer of them.
- OrdersAdmin.RowId: the same for its `slice(0, 8)`.
- Js.Trim: the whitespace set is the one ECMAScript defines for `trim` as of Unicode 15; it is fixed in the model, not read from the engine's Unicode tables.
- A missing field is modelled as its empty value, so `user.role?.toLowerCase()` on a missing role and the `?.includes` searches on missing fields behave as on "".
- Sort comparators that return `NaN` (undefined createdAt, non-numeric prices) are not modelled; the dates compared are always defined integers.
- `Object.entries` is modelled as insertion order; JavaScript lists integer-like keys first, which no month or category key is.
- UsersAdmin.FilteredUsersOrder: the name, email and role sorts (src/Admin/UsersManagement.jsx:146-150) use `a.field?.localeCompare(b.field)`, which does not throw on a missing field: a missing field on the left makes the comparator return `undefined`, which the sort treats as a tie, and a missing field on the right is compared as the string "undefined"; the model compares the empty string in both places, so the order around users with a missing name, email or role is not the source's.
- Catalog.NameKey: on `Products`, the "name-az" comparator (src/Pages/Products.jsx:73) calls `(a.name || a.title).localeCompare(...)`, which throws a TypeError when the left product has neither a name nor a title, aborting the filter effect so the shown list is not updated; the model gives such a product the key "" and sorts on. A missing name and title on the right is compared as the string "undefined", which the model also reads as "".
- Ring's `updateQuantity(id, "decrease")` call in its cart controls, `clearWishlist`, toasts, alerts, loading flags, modals and the SVG charts are not modelled; `window.confirm` is the parameter `confirmed`.
- Analytics.ProcessAnalyticsData: when the range is "all", `filterDataByTimeRange` returns the local `orders` array read at src/Admin/Analytics.jsx:36-59 itself, so the recent-orders sort reorders that array in place; the model sorts a copy, and only the effect on the monthly grouping, which reads the sorted list, is modelled. `calculateGrowthStats` and the static pages (Home, navigation bar, footer) are not part of this model.
- OrdersAdmin.OrdersView.UpdateOrderStatus: the outer `catch` that re-fetches on an error in the local update path is not modelled, since that path raises no error over well-formed data.
- Catalog.CatalogView.Refilter: the React effect scheduling (which dependency change triggers a run, and batching) is modelled as an explicit call after each change.

## Findings

| source | as written | input that shows it | evidently intended | confidence | as-written member | corrected member |
|---|---|---|---|---|---|---|
| src/Pages/PaymentPage.jsx:9,58 | the page reads `items` and `total` from the navigation state, but "buy now" (src/Pages/Ring.jsx:83) sends `{ product }`, so `items` is undefined and `items.length` throws | "buy now" on any ring | a "buy now" state shows the checkout form for that one product at its offer price | not executed | Payment.ViewAsWrittenCases | Payment.ViewSpec |
| src/Admin/Analytics.jsx:95,104-106 | an item without a category is counted under "unknown", but the revenue filter compares `item.category === "unknown"`, so that bucket never earns revenue | any order whose only line is a single uncategorised product | a bucket's revenue is the total of the orders whose items were counted in it | not executed | Analytics.PopularUnknownAsWritten | Analytics.PopularCategoriesIntendedSpec |
