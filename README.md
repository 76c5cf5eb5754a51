# FoodieApp core, modelled in Dafny

FoodieApp is a single-page food-ordering client. A visitor signs in against a
mock session store, browses a catalog by category and search query, fills a
cart, checks out (delivery or pickup, card or cash), optionally pays by card,
and watches a simulated order-progress dialog until the order completes and
the cart is emptied. This project models the logic under that UI:

- `CartUtils` (`cart_utils.dfy`): the pure cart and pricing engine. It adds,
  removes and sets the quantity of lines and computes the subtotal, item
  count, delivery fee (2.99 below a subtotal of 25, free from 25 on), 8% tax
  and total. Money is an exact `real`.
- `CartHook` (`cart_hook.dfy`): the cart holder, a class whose one `items`
  field every mutator replaces with the engine's result. Its totals are
  functions of that field. `Apply`/`Replay` stand for a sequence of mutator
  calls, so that invariants can be stated over every reachable cart.
- `Checkout` (`checkout.dfy`): the checkout form (delivery mode, payment
  method, contact details) and the snapshot it hands on. Pickup waives the
  fee, and tax is charged on subtotal plus fee, unlike the cart's tax on the
  subtotal alone.
- `Payment` (`payment.dfy`): the card-number formatter, proved as a loop
  against a functional specification. Also the CVV filter and the form
  fields they update.
- `OrderProgress` (`order_progress.dfy`): the order dialog's state machine.
  Each timer callback is one method. `RunOrder` drives it from
  "Place Order" to the reset.
- `FoodGrid` (`food_grid.dfy`): the category lookup and the
  case-insensitive substring search.
- `Auth` (`auth.dfy`): the mock session store, with its login and signup
  rules, the storage key `"foodapp_user"`, restore at startup, and logout.
- `Profile` (`profile.dfy`): the profile dialog's draft/commit editing, and
  the avatar initials.
- `Page` (`page.dfy`): the page. It has the loading/landing/storefront gate,
  the dialog-open flags, the checkout snapshot carried to payment and the
  order dialog, the order-dialog total, and the handlers wiring the
  components above together. The page holds the session store, the cart,
  and the checkout dialog, payment form and order dialog of the storefront.
  Its own state variables form one `PageState` value, and every handler
  states the new `PageState` in full. The last timer callback of the payment
  form and of the order dialog is one page method that runs the dialog's
  step and the page handler it reports to.
- `Strings` (`strings.dfy`): joining pieces with single spaces, used by the
  card-number formatter and by the avatar initials.
- `Wrappers` (`wrappers.dfy`): `Option`.

Handlers that the page only renders in some state carry that state as a
`requires`. Storefront handlers need a signed-in user. "Place Order" needs
the open order dialog in its "ordering" state. The profile inputs need
editing. The card-number and CVV inputs and "Pay" need the form not to be
processing. The checkout contact inputs need delivery to be chosen
(src/components/cart/checkout-dialog.tsx:141). Timer callbacks need only
their timer to be pending, whatever screen shows.

A quantity update removes a line only when the new quantity is exactly 0
(src/lib/cart-utils.ts:29). A negative quantity is stored on the line as
given, and `UpdateNegativeIsStored` states this. `ReachableCartsAreWellFormed`
shows that quantities stay at least 1 as long as no negative quantity is
passed in.

## Model

| member | source | states |
|---|---|---|
| CartUtils.AddItemToCart | src/lib/cart-utils.ts:4-15 | If the id is present, the ids and their order are unchanged, and the quantity goes up by 1 on exactly the lines with that id; every other line is untouched. If the id is absent, the old lines are kept as a prefix and one line with quantity 1 is appended. |
| CartUtils.RemoveItemFromCart | src/lib/cart-utils.ts:17-22 | No line with the id remains. A line is kept iff it was in the cart and has another id. The length drops by the number of matching lines. |
| CartUtils.UpdateItemQuantity | src/lib/cart-utils.ts:24-35 | Quantity 0 is exactly removal. Any other quantity keeps the ids and their order, replaces the quantity of the matching lines only, and leaves every other line unchanged. |
| CartUtils.CalculateDeliveryFee | src/lib/cart-utils.ts:45-47 | The fee is 0 iff the subtotal is at least 25; otherwise it is 2.99. |
| CartUtils.CalculateSubtotal | src/lib/cart-utils.ts:37-39 | The sum of price × quantity over the lines. Its properties are carried by `SubtotalConcat` (additive), `SubtotalAdd`, `SubtotalNonNegative` and `SubtotalPositive`. |
| CartUtils.CalculateTotalItems | src/lib/cart-utils.ts:41-43 | The sum of the quantities. Its properties are carried by `TotalItemsConcat`, `TotalItemsAdd` and `TotalItemsAddGeneral`. |
| CartUtils.CalculateTax | src/lib/cart-utils.ts:49-51 | 8% of the subtotal. `CartTotalFormula` and `Checkout.CheckoutTaxVersusCartTax` state what follows from it. |
| CartUtils.CalculateTotal | src/lib/cart-utils.ts:53-59 | Subtotal plus fee plus tax; with the cart's own tax, `CartTotalFormula` gives subtotal × 1.08 plus the fee. |
| CartUtils.AddPreservesDistinct | src/lib/cart-utils.ts:4-15 | Adding keeps the line ids pairwise distinct. |
| CartUtils.AddPreservesPositive | src/lib/cart-utils.ts:4-15 | Adding keeps every quantity at least 1. |
| CartUtils.TotalItemsAddGeneral | src/lib/cart-utils.ts:4-15 | Adding raises the item count (the sum of lines 41-43) by the number of lines with that id, or by 1 when there is none. |
| CartUtils.TotalItemsAdd | src/lib/cart-utils.ts:4-15 | In a cart with distinct ids, adding raises the item count (lines 41-43) by exactly 1. |
| CartUtils.SubtotalAdd | src/lib/cart-utils.ts:4-15 | In a cart with distinct ids whose line for the id (if any) has the new item's price, adding raises the subtotal (lines 37-39) by exactly that price. |
| CartUtils.RemoveConcat | src/lib/cart-utils.ts:17-22 | Removal distributes over concatenation, so the remaining lines keep their order. |
| CartUtils.RemoveAbsent | src/lib/cart-utils.ts:17-22 | Removing an absent id returns the cart unchanged. |
| CartUtils.RemoveIdempotent | src/lib/cart-utils.ts:17-22 | Removing the same id twice is the same as removing it once. |
| CartUtils.RemovePreservesDistinct | src/lib/cart-utils.ts:17-22 | Removal keeps the ids distinct. |
| CartUtils.RemovePreservesPositive | src/lib/cart-utils.ts:17-22 | Removal keeps every quantity at least 1. |
| CartUtils.UpdateAbsent | src/lib/cart-utils.ts:24-35 | Setting the quantity of an absent id returns the cart unchanged. |
| CartUtils.UpdatePreservesDistinct | src/lib/cart-utils.ts:24-35 | Setting a quantity keeps the ids distinct. |
| CartUtils.UpdatePreservesPositive | src/lib/cart-utils.ts:24-35 | A quantity of 0 or more keeps every line at least 1. |
| CartUtils.UpdateNegativeIsStored | src/lib/cart-utils.ts:29-34 | A negative quantity does not remove the line; it is stored as given. |
| CartUtils.SubtotalConcat | src/lib/cart-utils.ts:37-39 | The subtotal is additive over concatenation. |
| CartUtils.TotalItemsConcat | src/lib/cart-utils.ts:41-43 | The item count is additive over concatenation. |
| CartUtils.SubtotalNonNegative | src/lib/cart-utils.ts:37-39 | Non-negative prices and quantities give a non-negative subtotal. |
| CartUtils.SubtotalPositive | src/lib/cart-utils.ts:37-39 | A non-empty cart of positive prices and quantities has a positive subtotal. |
| CartUtils.DeliveryFeeBoundary | src/lib/cart-utils.ts:45-47 | At 24.99 and 20 the fee is 2.99; at 25, 25.01 and 30 it is 0. |
| CartUtils.CartTotalFormula | src/lib/cart-utils.ts:49-59 | The cart total is subtotal × 1.08 plus the fee. |
| CartUtils.FirstAddSubtotal | src/lib/cart-utils.ts:4-39 | Adding an item to the empty cart gives one line of one unit, with subtotal equal to the item's price and an item count of 1. |
| CartUtils.AddTwiceScenario | src/lib/cart-utils.ts:4-43 | An 18.99 item added to the empty cart gives 1 unit and 18.99. Adding it again gives one line of quantity 2 and 37.98. |
| CartHook.Cart.constructor | src/hooks/use-cart.ts:17 | The cart starts empty. |
| CartHook.Cart.AddItem | src/hooks/use-cart.ts:19-21 | The items become the engine's add applied to the old items. Distinct ids and positive quantities are kept. |
| CartHook.Cart.RemoveItem | src/hooks/use-cart.ts:23-25 | The items become the engine's removal applied to the old items. Both invariants are kept. |
| CartHook.Cart.UpdateQuantity | src/hooks/use-cart.ts:27-29 | The items become the engine's quantity update applied to the old items. Positivity is kept for quantities of 0 or more. |
| CartHook.Cart.ClearCart | src/hooks/use-cart.ts:31-39 | The cart is empty, with subtotal 0, 0 items, fee 2.99, tax 0 and total 2.99. |
| CartHook.Cart.DeliveryFee | src/hooks/use-cart.ts:37 | The fee follows the current subtotal: 0 from 25 on, 2.99 below. |
| CartHook.Cart.Tax | src/hooks/use-cart.ts:38 | Tax is 8% of the current subtotal. |
| CartHook.Cart.Total | src/hooks/use-cart.ts:39 | The total is subtotal + fee + tax, which is subtotal × 1.08 + fee. |
| CartHook.ApplyPreservesInvariants | src/hooks/use-cart.ts:19-33 | Any one mutator call keeps the ids distinct. It keeps quantities positive unless it passes a negative quantity. |
| CartHook.ReplayPreservesInvariants | src/hooks/use-cart.ts:19-33 | Any sequence of mutator calls keeps both invariants, under the same condition. |
| CartHook.ReachableCartsAreWellFormed | src/hooks/use-cart.ts:17-33 | Every cart reachable from the empty cart has distinct ids. Without negative quantities, every line holds at least one unit. |
| Checkout.FinalDeliveryFee | src/components/cart/checkout-dialog.tsx:48 | Pickup gives 0; delivery gives the incoming fee. |
| Checkout.FinalTax | src/components/cart/checkout-dialog.tsx:49 | 8% of subtotal plus applied fee; `CheckoutTaxVersusCartTax` relates it to the cart's tax. |
| Checkout.FinalTotal | src/components/cart/checkout-dialog.tsx:49-50 | The total is (subtotal + applied fee) × 1.08. |
| Checkout.Snapshot | src/components/cart/checkout-dialog.tsx:48-62 | The delivery type, payment method, details, lines and subtotal pass through unchanged. The fee is 0 for pickup and the incoming fee otherwise. Tax is (subtotal + fee) × 0.08, and the total is their sum. |
| Checkout.SnapshotIgnoresCartTaxAndTotal | src/components/cart/checkout-dialog.tsx:52-62 | Two prop sets that differ only in tax and total give the same snapshot. |
| Checkout.CheckoutTaxVersusCartTax | src/components/cart/checkout-dialog.tsx:49 | Checkout tax is the cart tax plus 8% of the fee, so it is higher for any positive fee. With pickup the two agree. |
| Checkout.CheckoutTotalVersusCartTotal | src/components/cart/checkout-dialog.tsx:48-50 | Given the cart's own fee, the delivery total is the cart total plus 8% of the fee. The pickup total is the cart total minus the fee. |
| Checkout.CheckoutDialog.constructor | src/components/cart/checkout-dialog.tsx:39-46 | The defaults are delivery, card, and the placeholder name, phone and address, with empty instructions. |
| Checkout.CheckoutDialog.SetDeliveryType | src/components/cart/checkout-dialog.tsx:108 | Changes the delivery type only. |
| Checkout.CheckoutDialog.SetPaymentMethod | src/components/cart/checkout-dialog.tsx:222 | Changes the payment method only. |
| Checkout.CheckoutDialog.SetName | src/components/cart/checkout-dialog.tsx:152-156 | Available with delivery chosen (line 141). Replaces the name in the details; nothing else changes. |
| Checkout.CheckoutDialog.SetPhone | src/components/cart/checkout-dialog.tsx:169-173 | Available with delivery chosen. Replaces the phone in the details; nothing else changes. |
| Checkout.CheckoutDialog.SetAddress | src/components/cart/checkout-dialog.tsx:187-191 | Available with delivery chosen. Replaces the address in the details; nothing else changes. |
| Checkout.CheckoutDialog.SetInstructions | src/components/cart/checkout-dialog.tsx:205-209 | Available with delivery chosen. Replaces the instructions in the details; nothing else changes. |
| Checkout.CheckoutDialog.HandleProceed | src/components/cart/checkout-dialog.tsx:52-64 | The record handed on is the snapshot of the current choices, totalling (subtotal + applied fee) × 1.08. |
| Payment.Digits | src/components/cart/payment-dialog.tsx:49 | The result is all ASCII digits and no longer than the input. A character occurs in it iff it occurs in the input and is a digit. An all-digit input comes back unchanged. |
| Payment.DigitsConcat | src/components/cart/payment-dialog.tsx:49 | Dropping non-digits distributes over concatenation, so the kept digits stay in input order. |
| Payment.DigitsBlockSpace | src/components/cart/payment-dialog.tsx:49 | From a block of digits, a space and a rest, only the space is dropped. |
| Payment.FirstMatch | src/components/cart/payment-dialog.tsx:50-51 | In an all-digit string of at least 4 digits, the match is a prefix of 4 to 16 digits, and it is the whole string whenever it is shorter than 16. With fewer than 4 digits there is no match. |
| Payment.GroupsStep | src/components/cart/payment-dialog.tsx:54-56 | The pieces from position i on are the substring from i to i + 4 (cut at the end), then the pieces after it. |
| Payment.FormatCardNumber | src/components/cart/payment-dialog.tsx:48-63 | The loop that pushes 4-character substrings and joins them computes exactly `CardNumberFormat`. |
| Payment.JoinGroupsAt | src/components/cart/payment-dialog.tsx:54-59 | The joined groups of m characters have length m + (m − 1) div 4. Position k holds a space when k mod 5 = 4 and character k − k div 5 otherwise. |
| Payment.DigitsJoinGroups | src/components/cart/payment-dialog.tsx:54-59 | Dropping the spaces from the joined groups of a digit string gives the string back. |
| Payment.FormatCharset | src/components/cart/payment-dialog.tsx:49-62 | The output holds only ASCII digits and spaces. |
| Payment.FormatShort | src/components/cart/payment-dialog.tsx:49-61 | With fewer than 4 digits, the output is exactly those digits, with no space. |
| Payment.FormatGroupsOfFour | src/components/cart/payment-dialog.tsx:50-59 | With 4 or more digits, the output is the first min(16, n) digits with a single space after every fourth. That is, groups of 4 and a last group of 1 to 4. |
| Payment.FormatKeepsLeadingDigits | src/components/cart/payment-dialog.tsx:49-62 | Dropping non-digits from the output gives the first min(16, n) digits of the input. |
| Payment.FormatLength | src/components/cart/payment-dialog.tsx:54-67 | The output is at most 19 long, so the handler's length guard (line 67) always passes. |
| Payment.FormatIdempotent | src/components/cart/payment-dialog.tsx:48-63 | Formatting a formatted value changes nothing. |
| Payment.PaymentForm.constructor | src/components/cart/payment-dialog.tsx:38-46 | All card fields are empty and processing is off. The billing address is the snapshot's delivery address when there is one, else empty. |
| Payment.PaymentForm.HandleCardNumberChange | src/components/cart/payment-dialog.tsx:65-70 | The card number becomes the formatted input; no other field changes. |
| Payment.PaymentForm.HandleCvvChange | src/components/cart/payment-dialog.tsx:72-77 | The CVV becomes the input's digits when there are at most 4, and stays as it was otherwise. It is always at most 4 digits, and no other field changes. |
| Payment.PaymentForm.HandlePayment | src/components/cart/payment-dialog.tsx:79-80 | "Pay", enabled only while not processing (line 258), turns processing on; no other field changes. |
| Payment.PaymentForm.ProcessingDone | src/components/cart/payment-dialog.tsx:83-85 | The processing delay ending turns processing off; no other field changes. The completion callback of line 85 is `Page.App.PaymentDelayEnds`. |
| OrderProgress.Label | src/components/cart/order-dialog.tsx:134-138 | Below 50 preparing, below 80 cooking, otherwise almost ready; `LabelMonotone` and `LabelsAlongTheTicks` state its behaviour. |
| OrderProgress.LabelMonotone | src/components/cart/order-dialog.tsx:134-138 | As progress grows, the label moves only forward: preparing, then cooking, then almost ready. |
| OrderProgress.LabelsAlongTheTicks | src/components/cart/order-dialog.tsx:134-138 | After k ticks the label is "Preparing ingredients..." for 10 to 40, "Cooking your food..." for 50 to 70, and "Almost ready for delivery!" for 80 to 100. |
| OrderProgress.OrderDialog.constructor | src/components/cart/order-dialog.tsx:31-34 | The dialog starts in "ordering" with progress 0. |
| OrderProgress.OrderDialog.PlaceOrder | src/components/cart/order-dialog.tsx:36-38 | Offered only while ordering (the button at lines 145-157). It moves the dialog to "confirmed" and starts the first delay. |
| OrderProgress.OrderDialog.ConfirmDelayEnds | src/components/cart/order-dialog.tsx:38-42 | The status becomes "preparing", with the counter at 0 and the interval running. |
| OrderProgress.OrderDialog.Tick | src/components/cart/order-dialog.tsx:42-46 | Each tick adds 10. At 100 the interval stops and the last delay starts. Progress stays a multiple of 10, at most 100. |
| OrderProgress.OrderDialog.CompleteDelayEnds | src/components/cart/order-dialog.tsx:49-50 | The dialog returns to "ordering" with progress 0 and no timer pending. The completion callback of line 48 is `Page.App.OrderCompleteDelayEnds`. |
| OrderProgress.RunOrder | src/components/cart/order-dialog.tsx:36-55 | A whole order ticks exactly 10 times and ends back in "ordering" with progress 0. |
| FoodGrid.CategoryItems | src/components/food/food-grid.tsx:155 | A known category gives its items; an unknown one gives none. |
| FoodGrid.FilterItems | src/components/food/food-grid.tsx:157-162 | An item is kept iff it is in the list and the query is empty or lower-cases to a substring of the lower-cased name or description. |
| FoodGrid.Matches | src/components/food/food-grid.tsx:158-161 | An empty query, or a query whose lower-case form is a substring of the lower-cased name or description. `FilterIgnoresQueryCase` and `QueryCaseInsensitive` state its case-insensitivity. |
| FoodGrid.FilteredItems | src/components/food/food-grid.tsx:155-162 | The category's items filtered by the query; `FilterConcat` keeps their order and `QueryCaseInsensitive` its case-insensitivity. |
| FoodGrid.ShowsNoItemsFound | src/components/food/food-grid.tsx:166 | The message shows iff nothing is left and the query is non-empty; `UnknownCategoryIsEmpty` gives a case where it shows. |
| FoodGrid.UnknownCategoryIsEmpty | src/components/food/food-grid.tsx:155-166 | An unknown category shows nothing. With a non-empty query it shows the "no items found" message (line 166). |
| FoodGrid.EmptyQueryKeepsAll | src/components/food/food-grid.tsx:157-159 | An empty query keeps the category's items unchanged, in order. |
| FoodGrid.FilterConcat | src/components/food/food-grid.tsx:157-162 | Filtering distributes over concatenation, so the kept items stay in their original order. |
| FoodGrid.FilterIgnoresQueryCase | src/components/food/food-grid.tsx:160-161 | Two queries with the same lower-case form give the same result. |
| FoodGrid.QueryCaseInsensitive | src/components/food/food-grid.tsx:155-162 | The grid for a query equals the grid for its lower-case form. |
| FoodGrid.IncludesFromSuffix | src/components/food/food-grid.tsx:160 | A piece found in a suffix of a string is found in the whole string. |
| FoodGrid.UpperCaseQueryExample | src/components/food/food-grid.tsx:160 | "PIZZA" finds "Margherita Pizza". |
| Auth.NameFromEmail | src/context/auth-context.tsx:50 | The name is a prefix of the email that holds no '@', and it is either the whole email or followed by '@'. |
| Auth.NameFromEmailUnique | src/context/auth-context.tsx:50 | Exactly one prefix has those properties, so they define the part before the first '@'. |
| Auth.Saved | src/context/auth-context.tsx:33-35 | The saved session is present iff the storage holds the key, and it is the stored record. |
| Auth.LoginUser | src/context/auth-context.tsx:48-52 | The new user has id "1" and the given email. The name is a prefix of the email with no '@' that is either the whole email or stops at an '@', which by `NameFromEmailUnique` is the part before the first '@'. |
| Auth.AuthStore.constructor | src/context/auth-context.tsx:28-29 | No user, and loading. |
| Auth.AuthStore.RestoreSession | src/context/auth-context.tsx:31-38 | A saved record becomes the user, loading ends, and storage is unchanged. |
| Auth.AuthStore.BeginRequest | src/context/auth-context.tsx:41 | A login request (and a signup request, line 68) sets loading and changes nothing else. |
| Auth.AuthStore.CompleteLogin | src/context/auth-context.tsx:44-61 | Returns true iff the email is non-empty and the password has at least 6 characters. On success the user is {id "1", name before '@', email} and is stored under "foodapp_user". On failure user and storage are unchanged. Loading ends either way. |
| Auth.AuthStore.CompleteSignup | src/context/auth-context.tsx:71-88 | Returns true iff name and email are non-empty and the password has at least 6 characters. On success the user carries the given name and is stored. On failure nothing changes. Loading ends. |
| Auth.AuthStore.Logout | src/context/auth-context.tsx:90-93 | There is no user, and the storage key is removed. |
| Auth.LoginScenario | src/context/auth-context.tsx:33-61 | On empty storage a 5-character password is refused and a 6-character one signs in. A new store over the resulting storage restores the same user. |
| Profile.InitialProfile | src/components/auth/profile-dialog.tsx:37-43 | The name and email are the user's when present and non-empty, otherwise "John Doe" and "john.doe@example.com". Phone, address and bio are the fixed placeholders. |
| Profile.Split | src/components/auth/profile-dialog.tsx:114 | Splitting on ' ' gives at least one piece, and no piece holds a space. |
| Profile.JoinSplit | src/components/auth/profile-dialog.tsx:114 | Joining the pieces with single spaces gives the name back. |
| Profile.FirstCharsOfSplit | src/components/auth/profile-dialog.tsx:113-116 | The pieces' first characters, joined, are exactly the characters that start a word. |
| Profile.Initials | src/components/auth/profile-dialog.tsx:113-116 | The first character of each space-separated piece, joined; `InitialsAreWordStarts` proves it equals the independent `WordStarts`. |
| Profile.InitialsAreWordStarts | src/components/auth/profile-dialog.tsx:113-116 | The initials are the first letter of every space-separated word. Empty words contribute nothing, and no space appears. |
| Profile.InitialsOfDefaultName | src/components/auth/profile-dialog.tsx:113-116 | "John Doe" gives "JD". |
| Profile.ProfileDialog.constructor | src/components/auth/profile-dialog.tsx:36-45 | The dialog is not editing, and the draft starts equal to the profile. |
| Profile.ProfileDialog.StartEditing | src/components/auth/profile-dialog.tsx:83-90 | "Edit" enters editing and leaves profile and draft as they are. |
| Profile.ProfileDialog.Save | src/components/auth/profile-dialog.tsx:47-50 | The draft becomes the profile, and editing ends. |
| Profile.ProfileDialog.Cancel | src/components/auth/profile-dialog.tsx:52-55 | The draft returns to the profile, which is unchanged, and editing ends. |
| Profile.ProfileDialog.EditName | src/components/auth/profile-dialog.tsx:141-146 | Changes only the draft's name, never the profile. |
| Profile.ProfileDialog.EditEmail | src/components/auth/profile-dialog.tsx:163-168 | Changes only the draft's email, never the profile. |
| Profile.ProfileDialog.EditPhone | src/components/auth/profile-dialog.tsx:184-189 | Changes only the draft's phone, never the profile. |
| Profile.ProfileDialog.EditAddress | src/components/auth/profile-dialog.tsx:205-210 | Changes only the draft's address, never the profile. |
| Profile.ProfileDialog.EditBio | src/components/auth/profile-dialog.tsx:227-229 | Changes only the draft's bio, never the profile. |
| Profile.EditSession | src/components/auth/profile-dialog.tsx:47-55 | A rename that is cancelled leaves the initials as they were. A rename that is saved shows the new initials. |
| Page.ScreenFor | src/app/page.tsx:32-73 | Loading shows while the session loads. Otherwise the landing screen shows exactly when there is no user, and the storefront exactly when there is one. |
| Page.ShownTotal | src/app/page.tsx:166 | The order dialog shows the snapshot's total when the snapshot is set and non-zero, and the live cart total otherwise. |
| Page.SnapshotTotalIsShown | src/app/page.tsx:166 | A snapshot of a cart with positive subtotal has a positive total, so that total is the one shown. |
| Page.CartTotalPositive | src/hooks/use-cart.ts:35-39 | The cart total of non-negative lines is positive, so the fallback never shows 0. |
| Page.App.constructor | src/app/page.tsx:20-30 | Every dialog is closed, the category is "popular", the search is empty, there is no snapshot, and the session is loading. The checkout dialog has its defaults (delivery, card, the placeholder details). The payment form has every field empty, including the billing address, and is not processing. The order dialog is "ordering" at progress 0 with no timer. |
| Page.App.Startup | src/app/page.tsx:32-43 | After the session store's startup, a saved session shows the storefront, and no saved session shows the landing screen. The page state is unchanged. |
| Page.App.OpenAuthDialog | src/app/page.tsx:59-64 | "Get Started" opens the sign-in dialog on the landing screen; nothing else changes. |
| Page.App.CloseAuthDialog | src/app/page.tsx:68 | Closing the sign-in dialog changes only its flag. |
| Page.App.SubmitLogin | src/app/page.tsx:43-73 | Accepted credentials sign in the login user, store it under "foodapp_user", and move the page from landing to storefront. Refused ones leave user, storage and screen as they were. The page state is unchanged. |
| Page.App.SubmitSignup | src/app/page.tsx:43-73 | The same under the signup rule, with the user carrying the given name. |
| Page.App.ShownItems | src/app/page.tsx:121-125 | The grid shows exactly the selected category's items that match the search query. |
| Page.App.SetCategory | src/app/page.tsx:116-119 | A category tab sets the selected category; nothing else changes. |
| Page.App.SetSearchQuery | src/app/page.tsx:102-103 | The header's search input sets the query; nothing else changes. |
| Page.App.AddToCart | src/app/page.tsx:123 | A card's "add" applies the engine's add to the cart; the page state is unchanged. |
| Page.App.OpenCart | src/app/page.tsx:100 | The header's cart button opens the sheet; nothing else changes. |
| Page.App.CloseCart | src/app/page.tsx:130 | Closing the sheet changes only its flag. |
| Page.App.CartUpdateQuantity | src/app/page.tsx:132 | The sheet's quantity buttons apply the engine's quantity update to the cart; the page state is unchanged. |
| Page.App.CartRemoveItem | src/app/page.tsx:133 | The sheet's remove button applies the engine's removal to the cart; the page state is unchanged. |
| Page.App.CartCheckout | src/app/page.tsx:138-141 | The cart sheet closes and the checkout dialog opens; nothing else changes. |
| Page.App.CartProps | src/app/page.tsx:147-151 | The checkout dialog receives the cart's live lines, subtotal, fee, tax and total. |
| Page.App.CloseCheckout | src/app/page.tsx:146 | Closing checkout changes only its flag. |
| Page.App.HandleProceedToPayment | src/app/page.tsx:75-83 | The snapshot is stored and checkout closes. Card opens payment; cash opens the order dialog. Nothing else changes. |
| Page.App.ProceedFromCheckout | src/app/page.tsx:144-153 | The stored snapshot is the checkout dialog's snapshot of the live cart, with the same flag changes. |
| Page.App.ClosePayment | src/app/page.tsx:157 | Closing payment changes only its flag. |
| Page.App.Pay | src/components/cart/payment-dialog.tsx:255-258 | "Pay" in the shown payment dialog starts processing; every form field and the page state are unchanged. |
| Page.App.HandlePaymentComplete | src/app/page.tsx:85-88 | Payment closes and the order dialog opens; nothing else changes. |
| Page.App.PaymentDelayEnds | src/components/cart/payment-dialog.tsx:83-86 | The payment delay ends: the form stops processing, then payment closes and the order dialog opens. Every form field, the screen and the rest of the page state are unchanged. |
| Page.App.OrderDialogTotal | src/app/page.tsx:166 | The total shown is the snapshot's when set and non-zero, and the cart's otherwise (`ShownTotal`). |
| Page.App.CloseOrderDialog | src/app/page.tsx:164 | Closing the order dialog changes only its flag. |
| Page.App.PlaceOrder | src/components/cart/order-dialog.tsx:145-155 | "Place Order" in the open order dialog confirms the order and starts the first delay; the page state is unchanged. |
| Page.App.OrderConfirmDelayEnds | src/components/cart/order-dialog.tsx:38-42 | Preparation starts at progress 0 with the interval running; the page state is unchanged. |
| Page.App.OrderTick | src/components/cart/order-dialog.tsx:42-46 | Progress rises by 10; at 100 the last delay starts. The page state is unchanged. |
| Page.App.HandleOrderComplete | src/app/page.tsx:90-94 | The cart is emptied (total 2.99), the order dialog closes, and the snapshot is dropped; nothing else changes. |
| Page.App.OrderCompleteDelayEnds | src/components/cart/order-dialog.tsx:47-51 | The order dialog's last delay ends: the page's completion empties the cart, closes the order dialog and drops the snapshot, then the dialog resets to "ordering" with progress 0. |
| Page.App.OpenProfile | src/app/page.tsx:101 | The header's profile button opens the profile dialog; nothing else changes. |
| Page.App.CloseProfile | src/app/page.tsx:172 | Closing the profile dialog changes only its flag. |
| Page.App.ProfileLogout | src/components/auth/profile-dialog.tsx:57-60 | Logout ends the session, removes the stored record, closes the profile dialog and shows the landing screen; nothing else changes. |
| Page.ShoppingScenario | src/app/page.tsx:121-141 | From a saved session, one "add" and "checkout" reach the checkout dialog with one unit in the cart and the item's price as subtotal. |
| Page.CheckoutScenario | src/app/page.tsx:75-88 | Proceeding by either method (card through "Pay" and its delay) opens the order dialog, which shows (price + fee) × 1.08. |
| Page.RunOrderDialog | src/components/cart/order-dialog.tsx:36-55 | "Place Order" and the order dialog's timers, run to the end, tick exactly ten times, empty the cart, drop the snapshot and close the order dialog, which is back in "ordering" at progress 0. |
| Page.OrderScenario | src/app/page.tsx:75-94 | From a saved session with one item of positive price, checkout by either method reaches the order dialog. It shows (price + fee) × 1.08, and completion empties the cart and drops the snapshot. |

## Left out

- Rendering, styling and animation (all JSX, the cart sheet, header, food card, category tabs) are not modelled. They are presentation.
- Real time is not modelled. Each `setTimeout`/`setInterval` callback is a separate method that may run whenever its timer is pending, and the 0.5 to 3 second durations are left out.
- Unmounting is not modelled. Logout hides the storefront, which in the source discards the state of the checkout dialog, payment form and order dialog and recreates it at the next sign-in. In the model those three live as long as the page.
- Page.App.HandlePaymentComplete and Page.App.HandleOrderComplete remain callable on their own. In the source only the payment and order timers call them, which is what `Page.App.PaymentDelayEnds` and `Page.App.OrderCompleteDelayEnds` model.
- `localStorage` and JSON serialisation are not modelled. Storage is a map from key to the user record, and reading back a stored record gives the record that was written.
- Concurrent, overlapping login or signup requests are not modelled. One request is open at a time.
- Quantities are mathematical integers (`int`), where the source's quantity is a JS `number`. The cart sheet only ever passes the current quantity plus or minus 1 (src/components/cart/cart.tsx:76-92), so fractional quantities do not arise.
- Floating-point money and `toFixed(2)` display are not modelled. Money is an exact `real`.
- Lower-casing is ASCII only, and `\s` in the card-number clean-up is subsumed by dropping every non-digit. Unicode case mapping is not modelled.
- Password length counts Dafny characters, not UTF-16 code units.
- Profile.Initials takes the first Dafny character of each word, where the source takes its first UTF-16 code unit. They differ only for characters outside the Basic Multilingual Plane.
- The static catalog data is not part of this model. The catalog is a parameter of type `Catalog`, and only the `FoodItem` fields the logic reads (id, name, description, price) are kept.
- The mock order history and the fixed "Premium Member" badge in the profile dialog are not modelled, and neither is the `useAuth` provider check. They are constants or plumbing.
- The expiry-month/year lists (which depend on the current date) and the expiry, name and billing-address inputs of the payment form are not modelled. They copy the input into one field with no rule.
- The `CheckoutData` type declared in src/lib/types.ts is not what the checkout dialog actually hands on. The model uses the object that is built (src/components/cart/checkout-dialog.tsx:52-62).
- Payment.PaymentForm.constructor takes the snapshot present when the form's state is created. The page creates the form once, before any snapshot exists, so its billing address starts empty. A later remount, after a logout left a snapshot behind, is not modelled.
- The payment form's card-number and CVV handlers are called on `Page.App.paymentForm` directly. The page has no handler of its own for them.
- CartUtils.TotalItemsAdd and CartUtils.SubtotalAdd assume distinct ids, which every reachable cart has (`CartHook.ReachableCartsAreWellFormed`). `CartUtils.TotalItemsAddGeneral` states the count for any cart.
