# Local delivery app: a Dafny model of its screens

The application is a React mock-up of a local delivery service for Coimbatore
shops, in English and Tamil. A role picker leads to a login screen, and the
login screen leads to one of four dashboards:

- Customer: browse approved stores, keep a cart, place an order and watch it
  being tracked.
- Shop owner: accept or reject incoming orders and manage the inventory.
- Delivery partner: go online, take the offered job, pick it up and deliver
  it, and collect the payout.
- Admin: approve or suspend partner stores.

All data is in memory. It starts from the constant tables in `constants.tsx`.

This project models:

- each screen's state and event handlers, as a Dafny `class` whose fields are
  the component's `useState` variables and whose methods are its handlers;
- the pure computations behind those handlers, as functions, together with
  the lemmas that state what they promise:
  - the cart update and totals;
  - the store filter;
  - the order-status maps;
  - the OTP slot edits;
  - the countdown label;
  - the translation lookup `t(key)`.

Modules, one per source file:

- `Types`: the records of `types.ts`.
- `Text`: the string built-ins the views use, each with its properties proved.
- `Constants`: `constants.tsx`.
- `I18n`: the `t(key)` lookup, which every view defines identically.
- `CustomerScreen`, `ShopOwnerScreen`, `DeliveryScreen` and `AdminScreen`: the
  four views.
- `Login`, `OtpInput`, `ResendTimer` and `AppShell`: the login view, the two
  components and `App.tsx`.

How state and events are modelled:

- A `setTimeout`/`setInterval` callback is a separate method the caller
  invokes; `Resolve`, `Tick` and `AdvanceStatus` are examples.
- A button that is only rendered in some states is modelled as a method that
  does nothing outside those states, and whose boolean result says whether it
  acted.
- The JavaScript cart object `{ [productId]: qty }` is a sequence of entries
  in key insertion order, with each key at most once.

Where the system's written specification and its code disagree, the model
follows the code:

- The customer screen creates orders with status `PLACED` and tracks them
  through `PLACED → ACCEPTED → PICKED_UP → DELIVERED`. The shop screen uses
  its own list of orders, with the status `PENDING`.
  - The two are not connected.
  - No screen ever sets `READY`, and the shop's "Order Ready" button has no
    handler.
  - There is no shared order lifecycle, so none is modelled.
- The stored order total is the cart price without the 25 delivery fee. The
  fee is only added to the "Total Pay" figure in the cart drawer.
- An order can be placed with an empty cart. Emptying the cart inside the
  open drawer leaves the Place Order button on screen (`EmptyOrderPossible`).
- The header badge and the login heading translate `role.toLowerCase()`. The
  table has no keys `shop_owner` or `delivery_partner`, so those two roles
  show the raw key (`UnderscoredRoleKeysFallBack`).
- The admin signs in through the OTP path, under the name "Vijay (Partner)"
  (`Login.OtpLoginName`).
- The alert on an incomplete OTP is modelled as the `OtpRejected` outcome.
- The delayed login callback reads the OTP slots captured when the form was
  submitted.
- The delayed login callback is never cancelled, and the login screen's Back
  button stays active while it is pending. `handleLogin` sets the user on
  every call. A late answer can therefore sign in a user whose role is not the
  chosen one, or set a user while the role picker shows (`StaleLogin`).
- `ResendTimer` with a start of zero or less:
  - it enables its button at once;
  - after one resend it hides the button for good, because the count no
    longer changes and the effect does not run again.

## Model

| member | source | states |
|---|---|---|
| Text.ToLower | views/CustomerView.tsx:38 | `toLowerCase` on ASCII: same length; only `A`–`Z` change, and no upper-case letter is left |
| Text.ToLowerIdempotent | views/CustomerView.tsx:38 | lower-casing twice is lower-casing once, so a lower-cased query matches as typed |
| Text.Contains | views/CustomerView.tsx:38-39 | every text includes the empty query, and no text includes a needle longer than itself |
| Text.ContainsIff | views/CustomerView.tsx:38-39 | `includes` is true exactly when the needle occurs at some position of the text |
| Text.NatToString | components/ResendTimer.tsx:45 | `toString` of a natural number gives decimal digits with no leading zero, and one or two characters exactly for values below 10 and below 100 |
| Text.ParseNatToString | components/ResendTimer.tsx:45 | reading the printed digits back gives the number (round trip) |
| Text.PadStart | components/ResendTimer.tsx:45 | `padStart(width, c)` gives a result of length max(len, width) that ends with the original text, with `c` before it |
| Text.Join | views/LoginView.tsx:41 | `join('')` of single-character slots has one character per filled slot |
| Text.JoinLengthCountsFilled | views/LoginView.tsx:41 | with single-character slots, `join('')` has one character per filled slot, so it is as long as the row exactly when no slot is empty |
| Constants.Lookup | constants.tsx:4-47 | the table lookup finds an entry exactly when some row has the key, and returns a row's text for that key |
| Constants.ProductIdsDistinct | constants.tsx:56-61 | the catalogue's product ids are pairwise distinct |
| Constants.ProductStoresExist | constants.tsx:49-61 | every product belongs to a store of the store table |
| Constants.OnlyStoreFourUnapproved | constants.tsx:49-54 | store '4' is the one store not approved |
| Constants.PricesPositive | constants.tsx:56-61 | every catalogue price is positive |
| Constants.TranslationsComplete | constants.tsx:4-47 | every row of the translation table has non-empty English and Tamil text |
| I18n.ListedKeyTranslated | App.tsx:53 | a listed key never falls back: `t` gives that row's non-empty text |
| I18n.UnlistedFallsBack | App.tsx:53 | a key with no row is shown as itself |
| I18n.ShopOwnerKeyUnlisted | constants.tsx:4-47 | the table has no `shop_owner` row |
| I18n.DeliveryPartnerKeyUnlisted | constants.tsx:4-47 | the table has no `delivery_partner` row |
| I18n.UnderscoredRoleKeysFallBack | App.tsx:160 | the badge for the shop-owner and delivery-partner roles reads `shop_owner` / `delivery_partner` in both languages |
| I18n.RoleKey | App.tsx:160 | the badge key is the lower-cased enum string of the role |
| I18n.LookupLast | App.tsx:53 | `TRANSLATIONS[key]` returns the last row carrying the key, as an object literal with a repeated key does |
| I18n.CustomerBadgeTranslated | App.tsx:160 | the customer badge is translated and never empty |
| I18n.AdminBadgeTranslated | App.tsx:160 | the admin badge is translated and never empty |
| CustomerScreen.Quantity | views/CustomerView.tsx:45 | `cart[id] \|\| 0`: 0 for an absent key, otherwise the quantity stored as that key's entry |
| CustomerScreen.RemoveKey | views/CustomerView.tsx:47-48 | the rest-destructuring drops exactly key `id`, keeps every other quantity and key, and keeps the keys distinct |
| CustomerScreen.SetKey | views/CustomerView.tsx:50 | the spread sets key `id` to `q` and leaves every other key; an existing key keeps its place, and a new key is appended |
| CustomerScreen.NewQuantity | views/CustomerView.tsx:45-46 | the quantity left after the update is never negative, and is either 0 or the old quantity plus `delta` |
| CustomerScreen.UpdatedCart | views/CustomerView.tsx:43-52 | `updateCart`: `id` ends with the new quantity and is present iff old + delta > 0; no other key changes |
| CustomerScreen.UpdatePreservesWellFormed | views/CustomerView.tsx:43-52 | `updateCart` never stores a key twice or a quantity of 0 or less |
| CustomerScreen.QuantityPositive | views/CustomerView.tsx:46-50 | in a well-formed cart, every present key has a positive quantity |
| CustomerScreen.SetKeyTwice | views/CustomerView.tsx:50 | setting a key twice is setting it once to the last value |
| CustomerScreen.SetKeyToSame | views/CustomerView.tsx:50 | setting a key to its current quantity changes nothing, order included |
| CustomerScreen.RemoveAppended | views/CustomerView.tsx:47-50 | removing a key just appended restores the cart |
| CustomerScreen.PlusThenMinusRestores | views/CustomerView.tsx:43-52 | pressing + then − on a product gives back exactly the cart it started from |
| CustomerScreen.DistinctKeysCount | views/CustomerView.tsx:63 | with distinct keys, the number of keys (`Object.keys(cart).length`) is the number of entries |
| CustomerScreen.FindProduct | views/CustomerView.tsx:56 | `find` returns a catalogue product with that id, and nothing exactly when no product has it |
| CustomerScreen.PriceOf | views/CustomerView.tsx:56-57 | `p?.price \|\| 0`: 0 for an id no product carries, otherwise the price of a product carrying it |
| CustomerScreen.TotalItems | views/CustomerView.tsx:54 | in a cart of positive quantities the item count is at least the number of entries, and is positive iff the cart is non-empty (so the cart button shows iff the cart has entries) |
| CustomerScreen.TotalPrice | views/CustomerView.tsx:55-58 | with no negative price and no negative quantity the cart price is never negative |
| CustomerScreen.FindProductUnique | views/CustomerView.tsx:56 | with distinct ids, `find` returns the one product carrying the id |
| CustomerScreen.RemoveKeyItems | views/CustomerView.tsx:47-48 | removing a key lowers the item count by its quantity |
| CustomerScreen.RemoveKeyPrice | views/CustomerView.tsx:55-58 | removing a key lowers the price total by price × its quantity |
| CustomerScreen.SetKeyItems | views/CustomerView.tsx:50 | setting a key to `q` moves the item count from the old quantity to `q` |
| CustomerScreen.SetKeyPrice | views/CustomerView.tsx:55-58 | setting a key to `q` moves the price total by price × (q − old quantity) |
| CustomerScreen.UpdateCartItems | views/CustomerView.tsx:43-54 | `updateCart` changes `cartTotalItems` by exactly the change in that product's quantity |
| CustomerScreen.UpdateCartPrice | views/CustomerView.tsx:43-58 | `updateCart` changes `cartTotalPrice` by exactly the product's price times the change in its quantity |
| CustomerScreen.TwoMilkScenario | views/CustomerView.tsx:55-58 | two Fresh Milk cost 60; the drawer shows 85 with the fee |
| CustomerScreen.StepIndex | views/CustomerView.tsx:25-26 | `indexOf` gives the position of the status in the four-step list |
| CustomerScreen.Advanced | views/CustomerView.tsx:22-33 | the timer moves a status to the next step of the list; DELIVERED stays |
| CustomerScreen.TrackingRun | views/CustomerView.tsx:22-33 | from PLACED, k firings reach step min(k, 3): no step skipped, DELIVERED final |
| CustomerScreen.ProgressPercent | views/CustomerView.tsx:180 | the progress bar is 25% per reached step |
| CustomerScreen.AdvanceKeepsLit | views/CustomerView.tsx:202-205 | advancing never switches a highlighted step dot off |
| CustomerScreen.OrderLabel | views/CustomerView.tsx:62 | the order id is `ORD-` followed by digits that read back as the order number (round trip) |
| CustomerScreen.FourDigits | views/CustomerView.tsx:62 | a number in 1000..9999 prints as four digits |
| CustomerScreen.PlacedOrderFacts | views/CustomerView.tsx:60-67 | the placed order has status PLACED, counts the distinct products, has a non-negative total 25 below the drawer's "Total Pay" (line 304), and an 8-character `ORD-nnnn` id |
| CustomerScreen.EmptyOrderPossible | views/CustomerView.tsx:290-309 | removing the last unit in the drawer leaves an empty cart, and placing it stores 0 items and total 0 |
| CustomerScreen.ApprovedStores | views/CustomerView.tsx:35 | the approved list holds exactly the approved stores |
| CustomerScreen.MatchingMembers | views/CustomerView.tsx:36-41 | the category/search filter keeps exactly the stores matching both |
| CustomerScreen.FilteredStores | views/CustomerView.tsx:35-41 | a store is listed iff it is approved, of the selected category (or ALL), and its lower-cased name includes the lower-cased query or its Tamil name includes the query |
| CustomerScreen.FilteredStoresSplit | views/CustomerView.tsx:35-41 | the listing keeps the table's order, because it distributes over concatenation |
| CustomerScreen.ApprovedSplit | views/CustomerView.tsx:35 | the approval filter distributes over concatenation |
| CustomerScreen.MatchingSplit | views/CustomerView.tsx:36-41 | the category/search filter distributes over concatenation |
| CustomerScreen.EmptyQueryListsCategory | views/CustomerView.tsx:36-41 | with an empty query, every approved store of the category is listed |
| CustomerScreen.StoreFourNeverListed | views/CustomerView.tsx:35 | the unapproved store '4' is never shown to a customer |
| CustomerScreen.CustomerView.constructor | views/CustomerView.tsx:12-17 | starts on EXPLORE, category ALL, empty query and cart, drawer closed, no order |
| CustomerScreen.CustomerView.Listing | views/CustomerView.tsx:35-41 | the explore tab lists a store iff it is in the store table, approved, of the selected category (or ALL) and matches the query |
| CustomerScreen.CustomerView.Search | views/CustomerView.tsx:114 | sets the query only |
| CustomerScreen.CustomerView.SelectCategory | views/CustomerView.tsx:123 | sets the category only |
| CustomerScreen.CustomerView.SelectTab | views/CustomerView.tsx:77-98 | EXPLORE and HISTORY always switch the tab; TRACK only while an order exists; nothing else changes |
| CustomerScreen.CustomerView.UpdateCart | views/CustomerView.tsx:43-52 | the cart becomes `UpdatedCart` and stays well-formed; nothing else changes |
| CustomerScreen.CustomerView.OpenCart | views/CustomerView.tsx:251-254 | the cart button opens the drawer iff items > 0 and the drawer is closed |
| CustomerScreen.CustomerView.CloseCart | views/CustomerView.tsx:276 | closes the drawer only |
| CustomerScreen.CustomerView.PlaceOrder | views/CustomerView.tsx:60-72 | from the open drawer: the order becomes `NewOrder(cart)`, the cart is emptied, the drawer closes and the TRACKING tab shows |
| CustomerScreen.CustomerView.AdvanceStatus | views/CustomerView.tsx:22-33 | while an undelivered order is tracked, its status moves one step; nothing else changes |
| ShopOwnerScreen.WithStatus | views/ShopOwnerView.tsx:23-25 | `handleUpdateStatus` gives every order with that id the new status, and changes no other field, order or length |
| ShopOwnerScreen.OfferedActions | views/ShopOwnerView.tsx:106-116 | only a PENDING order has buttons that act: Reject (CANCELLED) and Accept (ACCEPTED) |
| ShopOwnerScreen.ActiveCount | views/ShopOwnerView.tsx:65 | the "Active" figure is the number of orders minus the number whose status is CANCELLED |
| ShopOwnerScreen.WithStatusUnmatched | views/ShopOwnerView.tsx:23-25 | an id no order carries changes nothing |
| ShopOwnerScreen.ActiveCountAfterUpdate | views/ShopOwnerView.tsx:23-25 | with distinct ids, the Active figure moves by exactly the change in that one order's cancelled state |
| ShopOwnerScreen.AnswerPendingOrder | views/ShopOwnerView.tsx:106-116 | answering a pending order changes that order alone, leaves it without buttons, and lowers the Active figure exactly on a rejection |
| ShopOwnerScreen.ShopInventory | views/ShopOwnerView.tsx:15 | the inventory holds exactly the products of stores '1' and '2' |
| ShopOwnerScreen.ShopInventoryKeepsOwn | views/ShopOwnerView.tsx:15 | a list of products of stores '1' and '2' is kept whole |
| ShopOwnerScreen.StartingInventory | views/ShopOwnerView.tsx:15 | the whole catalogue is the starting inventory |
| ShopOwnerScreen.RemoveProduct | views/ShopOwnerView.tsx:29 | the filter keeps exactly the products with another id |
| ShopOwnerScreen.RemoveProductSplit | views/ShopOwnerView.tsx:29 | deleting keeps the remaining products in order |
| ShopOwnerScreen.RemoveListedProduct | views/ShopOwnerView.tsx:29 | with distinct ids, deleting a listed product removes exactly one |
| ShopOwnerScreen.RemoveUnlistedProduct | views/ShopOwnerView.tsx:29 | deleting an unlisted id changes nothing |
| ShopOwnerScreen.StartingLowStock | views/ShopOwnerView.tsx:145 | of the starting inventory only Mysore Pak (10) is under 15; Laddu Box at 15 is not |
| ShopOwnerScreen.EmptyFormCannotSave | views/ShopOwnerView.tsx:34-45 | Save needs a name and a price, so the reset form cannot be saved: a second Save straight after a successful one adds nothing |
| ShopOwnerScreen.AddThenDeleteRestores | views/ShopOwnerView.tsx:27-47 | deleting a product just saved under a fresh id gives back the list it was added to |
| ShopOwnerScreen.AddedProductIsOwn | views/ShopOwnerView.tsx:15-44 | a saved product belongs to store '1', so it is one of the screen's own products |
| ShopOwnerScreen.AddedProductLowStock | views/ShopOwnerView.tsx:145 | a saved product is flagged red iff `Number` of the typed stock is under 15; listed products keep their flag |
| ShopOwnerScreen.ShopOwnerView.constructor | views/ShopOwnerView.tsx:13-21 | starts on ORDERS with the dialog closed, the stores' inventory (the whole catalogue), an empty form and the two sample orders |
| ShopOwnerScreen.ShopOwnerView.ActiveOrders | views/ShopOwnerView.tsx:65 | the Active figure is the number of orders that are not CANCELLED |
| ShopOwnerScreen.ShopOwnerView.HandleUpdateStatus | views/ShopOwnerView.tsx:23-25 | the orders become `WithStatus`; nothing else changes |
| ShopOwnerScreen.ShopOwnerView.DeleteProduct | views/ShopOwnerView.tsx:27-31 | on confirmation, the products become `RemoveProduct`; otherwise nothing changes |
| ShopOwnerScreen.ShopOwnerView.OpenAddProduct | views/ShopOwnerView.tsx:125 | opens the dialog only |
| ShopOwnerScreen.ShopOwnerView.CloseAddProduct | views/ShopOwnerView.tsx:167 | closes the dialog and keeps the typed form |
| ShopOwnerScreen.ShopOwnerView.SelectTab | views/ShopOwnerView.tsx:75-81 | switches the tab only |
| ShopOwnerScreen.ShopOwnerView.EditForm | views/ShopOwnerView.tsx:177-198 | replaces the form only |
| ShopOwnerScreen.ShopOwnerView.HandleAddProduct | views/ShopOwnerView.tsx:33-47 | with a name and a price: prepends the new product, resets the form and closes the dialog; otherwise nothing changes |
| DeliveryScreen.StopLabel | views/DeliveryView.tsx:54 | PICKUP exactly in step ACCEPTED, DROP exactly in step PICKED_UP |
| DeliveryScreen.StopShownFollowsStep | views/DeliveryView.tsx:54-55 | the heading determines the step, and so the place shown |
| DeliveryScreen.DeliveryView.constructor | views/DeliveryView.tsx:24-27 | offline, no job, step ACCEPTED, earnings 1240 |
| DeliveryScreen.DeliveryView.ToggleOnline | views/DeliveryView.tsx:150-155 | the power button, shown only without a job, flips online; earnings are kept equal to 1240 + 65 × jobs completed |
| DeliveryScreen.DeliveryView.AcceptJob | views/DeliveryView.tsx:158-203 | online and idle: the offered job #JOB-9921 (payout 65) starts in step ACCEPTED |
| DeliveryScreen.DeliveryView.ConfirmPickup | views/DeliveryView.tsx:106-109 | a running job in step ACCEPTED moves to PICKED_UP |
| DeliveryScreen.DeliveryView.HandleComplete | views/DeliveryView.tsx:31-35 | in step PICKED_UP: the payout is added, the job cleared and the step reset; earnings never decrease |
| DeliveryScreen.DeliverOneJob | views/DeliveryView.tsx:31-35 | going online, accepting, picking up and delivering adds exactly 65 and leaves the screen idle and online |
| DeliveryScreen.EarningsAtLeastStart | views/DeliveryView.tsx:27 | earnings never fall below 1240 |
| OtpInput.LastChar | components/OtpInput.tsx:25 | `substring(length − 1)` is the last character, or empty exactly for an empty value |
| OtpInput.Changed | components/OtpInput.tsx:19-26 | a non-numeric value changes nothing; otherwise slot `index` alone takes the last character |
| OtpInput.ChangeFocus | components/OtpInput.tsx:29-31 | focus moves to `index + 1` iff a non-empty numeric value was typed and a next slot exists |
| OtpInput.BackspaceFocus | components/OtpInput.tsx:34-39 | Backspace on an empty slot after the first moves focus back one, and nothing else does |
| OtpInput.Pasted | components/OtpInput.tsx:43-50 | each slot below the pasted length takes its numeric pasted character; every other slot stays |
| OtpInput.PasteFocus | components/OtpInput.tsx:52 | focus goes to the slot after the pasted characters, capped at the last slot |
| OtpInput.ChangeKeepsSingleChars | components/OtpInput.tsx:25 | typing keeps every slot at one character at most |
| OtpInput.PasteKeepsSingleChars | components/OtpInput.tsx:43-47 | pasting keeps every slot at one character at most |
| OtpInput.PasteFillsRow | components/OtpInput.tsx:43-50 | pasting an all-digit code at least a row long fills every slot |
| OtpInput.HandleChange | components/OtpInput.tsx:19-32 | the array becomes `Changed` of its old contents; the focus is `ChangeFocus` |
| OtpInput.HandlePaste | components/OtpInput.tsx:41-54 | the loop leaves the array equal to `Pasted` of its old contents; the focus is in range |
| ResendTimer.IntToString | components/ResendTimer.tsx:45 | `toString` of an integer starts with '-' exactly for a negative value, and the digits after it read back as the magnitude (round trip) |
| ResendTimer.LabelShowsTwoDigits | components/ResendTimer.tsx:45 | for 0..99 the label ends in exactly two digits that read back as the count |
| ResendTimer.Timer.constructor | components/ResendTimer.tsx:12-24 | the count starts at `initialSeconds`; the button shows at once iff that is not positive |
| ResendTimer.Timer.View | components/ResendTimer.tsx:34-47 | the Resend button exactly when `canResend`; otherwise the countdown label |
| ResendTimer.Timer.Tick | components/ResendTimer.tsx:15-24 | while seconds remain, the count drops by one, and the button appears when it reaches 0 |
| ResendTimer.Timer.HandleResend | components/ResendTimer.tsx:26-30 | the count restarts, the button goes away and `onResend` is counted once |
| ResendTimer.Timer.RunDown | components/ResendTimer.tsx:15-24 | ticking until the interval stops takes exactly as many ticks as seconds remained, and ends at 0 with the button shown |
| ResendTimer.NeverNegative | components/ResendTimer.tsx:15-24 | with a non-negative start, the count stays between 0 and the start |
| Login.RoleTheme | views/LoginView.tsx:60-71 | green, orange, blue and gray for customer, shop owner, partner and admin; the subtitle is empty exactly for the admin |
| Login.ThemeColorsDistinct | views/LoginView.tsx:60-71 | each role has its own colour |
| Login.OtpLoginName | views/LoginView.tsx:43 | "Ravi Kumar" for the customer, and "Vijay (Partner)" for every other OTP role |
| Login.OtpCompleteIffFilled | views/LoginView.tsx:41 | `otp.join('').length === 6` holds exactly when all six slots are filled |
| Login.SubmitDecision | views/LoginView.tsx:30-52 | the shop owner signs in as "Shop Manager"; other roles get the OTP step first, then sign in iff the code is complete, otherwise they get the alert |
| Login.OtpPathNeedsFilledCode | views/LoginView.tsx:36-49 | an OTP role never signs in on the first submit, and signs in later iff every slot is filled |
| Login.LoginView.constructor | views/LoginView.tsx:19-21 | six empty slots, OTP step hidden, not loading |
| Login.LoginView.HandleSubmit | views/LoginView.tsx:25-27 | when not already loading: starts loading and records the slots for the delayed callback |
| Login.LoginView.Resolve | views/LoginView.tsx:30-52 | stops loading; the outcome is `SubmitDecision` on the recorded slots; the OTP step shows from then on |
| Login.LoginView.TypeOtp | views/LoginView.tsx:152-157 | in the OTP step, the slots become `Changed`; otherwise nothing changes |
| Login.LoginView.PasteOtp | views/LoginView.tsx:152-157 | in the OTP step, the slots become `Pasted` and focus is in range; otherwise nothing changes |
| Login.OtpSignIn | views/LoginView.tsx:25-53 | submit, paste a six-digit code, submit: the role signs in under its login name |
| AdminScreen.Toggled | views/AdminView.tsx:14-16 | `toggleApproval` flips `isApproved` exactly for the stores with that id, and no other field |
| AdminScreen.ToggleTwice | views/AdminView.tsx:14-16 | toggling a store twice restores the list |
| AdminScreen.TogglesCommute | views/AdminView.tsx:14-16 | toggles of two stores can be applied in either order |
| AdminScreen.ApproveLabel | views/AdminView.tsx:117 | the approve label is "Approve" or "அங்கீகரி" |
| AdminScreen.ButtonLabel | views/AdminView.tsx:117 | the button reads "Suspend Access" iff the store is approved; otherwise "Approve" or "அங்கீகரி" by language |
| AdminScreen.AdminView.constructor | views/AdminView.tsx:11 | starts from the store table |
| AdminScreen.AdminView.ToggleApproval | views/AdminView.tsx:14-16 | the stores become `Toggled`; the store count does not change |
| AppShell.ViewFor | App.tsx:175-178 | each role gets its own dashboard, and no other role gets it |
| AppShell.ScreenFor | App.tsx:78-178 | role picker iff no role is chosen; login iff a role is chosen and nobody is signed in; otherwise the user's dashboard |
| AppShell.OtherLanguage | App.tsx:90 | the language button always switches the language |
| AppShell.OtherLanguageTwice | App.tsx:90 | pressing it twice gives the first language back |
| AppShell.App.constructor | App.tsx:49-51 | no role, nobody signed in, English |
| AppShell.App.SelectRole | App.tsx:66-84 | on the role picker, a role card or the settings button chooses that role; the login screen follows when nobody is signed in, and an already set user's own dashboard otherwise |
| AppShell.App.ToggleLanguage | App.tsx:89-90 | on the role picker, switches the language only |
| AppShell.App.HandleLogin | App.tsx:55-57 | sets the user on every call; with a role chosen the user's own dashboard follows, with none the role picker stays |
| AppShell.App.HandleLogout | App.tsx:59-62 | on a dashboard, clears the user and the role, back to the role picker; the language stays |
| AppShell.App.Back | App.tsx:145 | on the login screen, clears only the role |
| AppShell.ShopOwnerSignIn | App.tsx:55-57 | picking the shop owner and submitting signs in "Shop Manager" and shows the shop dashboard |
| AppShell.StaleLogin | App.tsx:55-57 | a shop-owner login answer arriving after Back and a pick of the admin card signs in "Shop Manager" and shows the shop dashboard under the admin role |
| AppShell.ToggleLanguageTwice | App.tsx:90 | two presses of the language button change nothing |

## Left out

- Rendering, styling, icons, images and the static marketing text and figures
  are not modelled. This covers the admin's revenue, reach and volume cards,
  the customer's history list and the delivery screen's statistics.
- Randomness and clocks are parameters:
  - the order number `Math.floor(Math.random() * 9000) + 1000` is a `number`
    in 1000..9999;
  - `toLocaleTimeString()` is a `timestamp` string;
  - the product id `` `p${Date.now()}` `` is an `id` parameter.
- `Number(...)` and `isNaN(Number(...))` are the parameters `toNumber` and
  `isNumeric`. JavaScript's number parsing, including `NaN` and fractional
  values, is not modelled.
- The timing of `setTimeout` and `setInterval` is not modelled. Each callback
  is a method the caller invokes. The interval of `ResendTimer` and the
  tracking timeout of the customer screen are cleared on unmount, which the
  model leaves to the caller by not invoking their methods. The login
  screen's timeout is never cleared, and a late call of `HandleLogin` is
  modelled (`StaleLogin`).
- `confirm(...)` is the `confirmed` argument of `DeleteProduct`. `alert(...)`
  is the `OtpRejected` outcome.
- `console.log` in the login screen's resend handler is not modelled. The
  `ResendTimer` that the login screen mounts is modelled as its own class, not
  as a field of `LoginView`.
- DOM focus is not modelled. The OTP handlers return the index of the slot
  that receives focus.
- `OtpInput` copies its `value` prop and passes the copy to `onChange`. The
  model writes the parent's slot array in place, which gives the same final
  contents.
- The mobile-number and password fields of the login form are not modelled,
  because no handler reads them. Browser form validation (`required`,
  `pattern`) is not modelled either.
- The add-product form is edited as a whole (`EditForm`), not field by field.
  The form has no input for the Tamil name, so it stays as the reset value
  unless set through `EditForm`.
- OtpInput.Pasted: strings are sequences of Unicode scalar values, while
  JavaScript's `slice` and `split('')` work on UTF-16 code units. A pasted
  character outside the Basic Multilingual Plane (an emoji) takes one
  position here but two in the browser, one per half of its surrogate pair.
  Neither half is numeric, but the digits after it land one slot later in the
  browser, and one fewer of them fits in the six slots.
- OtpInput.HandlePaste: the focus it returns counts scalar values, not the
  UTF-16 code units that `pastedData.length` counts, for the reason above.
- Text.JoinLengthCountsFilled: `length` counts UTF-16 code units. A slot
  holding one astral character counts 2 in JavaScript and 1 here. The slots
  only ever hold characters that passed the numeric check, so this does not
  arise through the handlers.
- Text.ToLower: lower-cases ASCII letters only, not the full Unicode mapping
  of `toLowerCase`.
- The cart object's key order is insertion order. JavaScript lists
  integer-like keys first, which the product ids (`p1`…) never are.
- Store ratings are kept as `real` values and are not used by any operation.
