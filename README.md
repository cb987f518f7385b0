# SUN8 storefront: client-side shop logic

This project models, in Dafny, the state logic of the SUN8 luxury storefront. The storefront is a single-page React application with no server. The model covers these parts:

- **The store** (`App.tsx`). It holds the catalog, the cart, the wishlist, the compare selection (at most three products), the category filter and the open/closed flags. Its handlers add to, update and remove from these lists. Deleting a product cascades to the cart, the wishlist and the compare selection.
- **The checkout wizard** (`CheckoutModal.tsx`). It runs shipping → payment → review → success. The shipping form must have every field non-blank. The totals are subtotal, free shipping and 10 % tax. The order is placed after a two-second processing phase, with a random order number.
- **The admin draft editor** (`AdminPanel.tsx`). It covers a new draft, selecting, field edits, image upload and `splice` removal. Save adds the fallback image and routes to update or add. Delete needs a confirmation.
- **The concierge chat** (`GeminiStylist.tsx`). It covers the transcript (greeting reset on language change, send guard, the history sent to the assistant, the reply or the error message) and the reply renderer. The renderer splits a reply into lines. It finds product titles case-insensitively, taking the leftmost match and the longest title there, and turns each match into a link to the first product with that title.
- **The cart drawer and the compare bar** (`CartDrawer.tsx`, `CompareBar.tsx`), as views of the store's lists together with the requests their buttons send.
- **The image carousels of the product card and the product modal** (`ProductCard.tsx`, `ProductModal.tsx`). Both have wrap-around previous/next, the preloaded next image and the fallback image on a load error. The card adds the dot indicator. The modal also preloads the previous image, and adds the thumbnails, the low-stock badge and add-and-close.
- **The localized seed catalog** (`utils/i18n.ts`, `getLocalizedProducts`).

One module per source file:

| module | file | models |
|---|---|---|
| `Types` | `types.dfy` | the records of `types.ts`, plus cart totals and image URLs |
| `Seqs` | `seqs.dfy` | JavaScript's `filter` and `indexOf`, and distinctness |
| `Text` | `text.dfy` | `trim`, ASCII `toLowerCase`, `split`/`join`, `toString` of integers, and `replace` of the first occurrence |
| `I18n` | `i18n.dfy` | `getLocalizedProducts` |
| `App` | `app.dfy` | the store; class `Shop` |
| `Checkout` | `checkout.dfy` | the wizard; class `Wizard` |
| `Admin` | `admin.dfy` | the draft editor; class `Panel` |
| `Concierge` | `concierge.dfy` | the chat; class `Chat` |
| `CartDrawer` | `cart_drawer.dfy` | the cart drawer |
| `CompareBar` | `compare_bar.dfy` | the compare bar |
| `Carousel` | `carousel.dfy` | the wrap-around index arithmetic both galleries share |
| `ProductCard` | `product_card.dfy` | the product card; class `Card` |
| `ProductModal` | `product_modal.dfy` | the product modal; class `Modal` |

Components that change state in place become classes. Each method's contract gives the whole new state as a function of the old state. The properties are proved about those functions, as lemmas.

Three behaviours of the code to note:

- **The cart is not persisted.** `App.tsx:32` starts the cart empty on every load, and only the catalog and the wishlist are written to storage.
- **`moveToCart` toggles the wishlist entry rather than removing it** (`App.tsx:141`). `App.Shop.MoveToCart` states this.
- **Closing checkout does not reset the wizard.** It keeps its state while closed; see "## Findings".

## Model

| member | source | states |
|---|---|---|
| Types.Subtotal | components/CheckoutModal.tsx:37 | the sum of price × qty over the cart; 0 for an empty cart |
| Types.SubtotalAppend | components/CheckoutModal.tsx:37 | the subtotal of two carts joined is the sum of their subtotals |
| Types.At | components/ProductCard.tsx:21 | `images[i]` as JavaScript reads it: the element for an index in range, undefined (None) otherwise |
| Types.Ids | App.tsx:96-99 | the ids of a product list, position by position |
| Types.IdsCons | App.tsx:88 | prepending a product prepends its id |
| Types.Titles | components/GeminiStylist.tsx:99 | `products.map(p => p.title)`, position by position |
| Types.LineTotal | components/CartDrawer.tsx:69 | one line's price × quantity; `CartDrawer.TotalIsLineSum` proves that the line totals add up to the checkout subtotal |
| Seqs.Filter | App.tsx:96 | `filter`: the kept elements, each as often as in the input, in order, and nothing else |
| Seqs.FilterAppend | App.tsx:96-99 | filtering distributes over concatenation |
| Seqs.FilterDropsOne | App.tsx:126 | filtering out one element between two kept runs leaves the two runs joined |
| Seqs.FilterNoDups | App.tsx:96-99 | filtering never creates a duplicate |
| Seqs.NoDupsCons | App.tsx:88 | a sequence with a head is duplicate-free exactly when the head is new and the tail is duplicate-free |
| Seqs.NoDupsAppend | App.tsx:134 | appending an absent id keeps a list duplicate-free |
| Seqs.IndexOf | components/CheckoutModal.tsx:73 | `indexOf`: the first position of the element, or -1 exactly when it is absent |
| Seqs.NoDupsWithin | App.tsx:162 | a duplicate-free list drawn from another list is no longer than it |
| Text.Trim | components/CheckoutModal.tsx:50 | `trim`: the result has no whitespace at either end, and is empty exactly when the input is all whitespace |
| Text.TrimEmptyIff | components/CheckoutModal.tsx:50 | `trim()` is empty exactly when every character is whitespace |
| Text.Lower | components/GeminiStylist.tsx:118 | `toLowerCase` over ASCII letters, character by character |
| Text.Split | components/AdminPanel.tsx:225 | `split(c)`: at least one piece, none containing the separator |
| Text.Join | components/AdminPanel.tsx:224 | `join(sep)`; `Text.JoinSplit` and `Text.SplitJoin` prove it inverse to `Split` |
| Text.JoinSplit | components/GeminiStylist.tsx:110 | joining the pieces of a split with the separator gives back the text |
| Text.SplitJoin | components/AdminPanel.tsx:224-225 | splitting a join of separator-free pieces gives back the pieces |
| Text.NatToDecimal | components/GeminiStylist.tsx:48 | `toString` of a non-negative integer: decimal digits with no leading zero |
| Text.DecimalRoundTrip | components/GeminiStylist.tsx:48 | the decimal text reads back as the number |
| Text.IntToDecimal | components/ProductModal.tsx:181 | `toString` of any integer, with a minus sign when it is negative |
| Text.IndexOfFrom | components/CheckoutModal.tsx:309 | the first occurrence of a pattern at or after a position, or none |
| Text.ReplaceFirst | components/CheckoutModal.tsx:309 | `replace` with a string pattern: only the first occurrence is replaced; without one the text is unchanged |
| Text.ReplacePlaceholder | components/CheckoutModal.tsx:309 | a placeholder whose first character does not occur before it is replaced in place |
| I18n.LocalizedProducts | utils/i18n.ts:487-613 | `getLocalizedProducts`: six entries in every language; the lemmas below state their ids, titles and language-independent fields |
| I18n.SeedEntry | utils/i18n.ts:488-613 | read through the translation helper `t` (Spanish for es, French for fr, English otherwise), each of the six entries has its id and title prefix, positive price and stock, an image, and the same non-text fields in every language |
| I18n.SeedIds | utils/i18n.ts:494-613 | in every language the catalog is w1, w2, j1, j2, w3, j3, in that order, with no duplicate |
| I18n.SeedLanguageIndependent | utils/i18n.ts:494-613 | switching the language changes only the texts: ids, prices, categories, stock, images and the number of features agree position by position |
| I18n.SeedWellFormed | utils/i18n.ts:494-613 | every seed product has an image, a positive price and a positive stock |
| I18n.SeedTitlesDistinct | utils/i18n.ts:494-613 | the six titles differ pairwise in each language |
| App.CartIds | App.tsx:104 | the ids of the cart lines, position by position |
| App.CartIdsCons | App.tsx:104 | the line ids of a cart with a first line start with that line's id |
| App.CartCount | App.tsx:191 | the cart icon's count: the sum of the quantities, 0 for an empty cart |
| App.CartCountBound | App.tsx:191 | in a well-formed cart the count is at least the number of lines |
| App.CartCountUpdate | App.tsx:115-123 | changing one line's quantity changes the count by the difference |
| App.CartCountAppend | App.tsx:110 | appending a line adds its quantity to the count |
| App.AddToCartList | App.tsx:102-111 | after `addToCart` the product is in the cart; the line ids stay as they were when it was present, and its id is appended when it was not |
| App.AddToCartExisting | App.tsx:104-108 | a repeated add raises that product's line by one and leaves every other line unchanged |
| App.AddToCartWellFormed | App.tsx:102-111 | adding keeps one line per id with quantities ≥ 1, and raises the count by exactly one |
| App.AddTimes | App.tsx:102-111 | `n` successive `addToCart` calls with one product; the next two lemmas state the cart they leave |
| App.AddTimesFromAbsent | App.tsx:102-111 | `n` adds of a product not in the cart append exactly one line, with quantity `n` |
| App.AddTimesFromEmpty | App.tsx:102-111 | from an empty cart, `n` adds give the single line (product, `n`) |
| App.Max | App.tsx:118 | `Math.max`: at least both arguments, and one of them |
| App.UpdateQtyList | App.tsx:115-123 | `updateQty` keeps the line ids |
| App.UpdateQtyFloor | App.tsx:115-123 | the matching lines get `max(1, qty + delta)`, the others are unchanged, and a well-formed cart stays well formed |
| App.Without | App.tsx:159 | `filter(x => x !== id)`: the id is gone, every other element stays, in order |
| App.RemoveFromCartList | App.tsx:126 | `removeFromCart`'s filter; `App.CartIdsWithout` and `App.RemoveFromCartSpec` state what it removes and what it keeps |
| App.CartIdsWithout | App.tsx:126 | the ids after `removeFromCart` are the ids without the removed one |
| App.RemoveFromCartSpec | App.tsx:125-127 | removing deletes the line whatever its quantity, keeps the other lines in order, and keeps the cart well formed |
| App.Toggle | App.tsx:129-137 | `toggleWishlist`: a present id is removed, an absent id is added, and nothing else changes membership |
| App.ToggleTwice | App.tsx:129-137 | toggling an absent id twice gives back the list |
| App.ToggleTwicePresent | App.tsx:129-137 | toggling a present id twice moves it to the end |
| App.ToggleNoDups | App.tsx:129-137 | toggling never creates a duplicate |
| App.ToggleCompareIds | App.tsx:144-156 | `toggleCompare`: the selection is unchanged when full and the product is not in it; otherwise the id is toggled |
| App.CompareLimitReached | App.tsx:146-152 | the limit alert's condition: the product is not selected and three are; `App.Shop.ToggleCompare` shows the notice exactly then |
| App.ToggleCompareInvariant | App.tsx:144-156 | the selection stays at most three ids with no duplicate |
| App.ToggleCompareTwice | App.tsx:144-156 | toggling an unselected product twice restores the selection, full or not |
| App.CompareLimitScenario | App.tsx:149-152 | with three products selected, a fourth brings up the limit notice and keeps the three |
| App.ReplaceProduct | App.tsx:91-93 | `handleUpdateProduct`: same length, and position by position the new version replaces every entry with its id and the other entries stay; hence the ids are unchanged, the new version is in the catalog when its id was, and nothing changes otherwise |
| App.RemoveProduct | App.tsx:96 | `handleDeleteProduct`'s catalog filter; `App.IdsWithout` proves its ids are the old ids without the deleted one |
| App.IdsWithout | App.tsx:96 | the catalog ids after a delete are the ids without the deleted one |
| App.FilterByCategory | App.tsx:165-168 | `filteredProducts`; `App.FilterByCategorySpec` states which products it shows |
| App.FilterByCategorySpec | App.tsx:165-168 | "all" shows the whole catalog; a category shows exactly its products, in catalog order |
| App.ProductsIn | App.tsx:161-172 | the filter behind `compareProducts` and `wishlistProducts`; the next two lemmas state which products it lists |
| App.IdsProductsIn | App.tsx:161-163 | the compare and wishlist views list the catalog ids that are selected, in catalog order |
| App.ProductsInBound | App.tsx:161-172 | over a catalog with unique ids the view has at most as many products as ids, and holds exactly the catalog products whose id is listed |
| App.Shop.constructor | App.tsx:31-52 | the initial store: Spanish; the stored catalog, or the Spanish seed; an empty cart; the stored wishlist, or none; nothing compared; category "all"; the cart drawer (`isCartOpen`) and the checkout (`isCheckoutOpen`) closed |
| App.Shop.SetLanguage | App.tsx:54-59 | the language changes, and the catalog is re-seeded in it only when no catalog is saved |
| App.Shop.AddProduct | App.tsx:87-89 | the new product goes first; nothing else changes |
| App.Shop.UpdateProduct | App.tsx:91-93 | the catalog becomes `ReplaceProduct` of the old, entry by entry as stated there; cart lines keep their snapshots and nothing else changes |
| App.Shop.DeleteProduct | App.tsx:95-100 | the id leaves the catalog, the cart, the wishlist and the compare selection, and nothing else changes |
| App.Shop.AddToCart | App.tsx:102-113 | the cart is updated and the drawer opens; the count rises by one |
| App.Shop.UpdateQty | App.tsx:115-123 | only the cart changes, to the updated quantities |
| App.Shop.RemoveFromCart | App.tsx:125-127 | only the cart changes, without the line |
| App.Shop.ToggleWishlist | App.tsx:129-137 | only the wishlist changes, toggled |
| App.Shop.MoveToCart | App.tsx:139-142 | add to the cart first, then toggle the wishlist entry |
| App.Shop.ToggleCompare | App.tsx:144-156 | the limit notice is shown exactly when the selection is full and lacks the product; only the selection changes |
| App.Shop.ClearCompare | App.tsx:158 | the selection becomes empty |
| App.Shop.RemoveFromCompare | App.tsx:159 | the id leaves the selection |
| App.Shop.SelectCategory | App.tsx:221-233 | only the category filter changes |
| App.Shop.StartCheckout | App.tsx:174-177 | the drawer closes and the checkout opens |
| App.Shop.PlaceOrder | App.tsx:179-182 | the cart is emptied and nothing else changes |
| App.Shop.CloseCheckout | App.tsx:184-186 | the checkout closes |
| App.Shop.FilteredProducts | App.tsx:165-168 | the grid's products: `FilterByCategory` of the catalog under the selected category |
| App.Shop.CompareProducts | App.tsx:161-163 | the compared products: `ProductsIn` of the catalog and the selection |
| App.Shop.WishlistProducts | App.tsx:170-172 | the wishlist's products: `ProductsIn` of the catalog and the wishlist ids |
| App.Shop.Count | App.tsx:191 | the cart icon's count, `CartCount` of the cart; `App.Shop.AddToCart` proves that an add raises it by one |
| App.CartScenario | App.tsx:102-127 | two adds of a product priced 100 give one line of quantity 2 and subtotal 200; removing it empties the cart |
| Checkout.MethodName | components/CheckoutModal.tsx:124-162 | the identifiers the five payment buttons set |
| Checkout.MethodLabel | components/CheckoutModal.tsx:245 | the review's `replace('_', ' ')` of the identifier; `Checkout.MethodLabels` gives each label |
| Checkout.MethodLabels | components/CheckoutModal.tsx:245 | the review shows "credit card" for the card; the other method names have no underscore and show as they are |
| Checkout.GetField | components/CheckoutModal.tsx:42-44 | the value of the input named after the field; `Checkout.SetField` and `Checkout.FieldsDetermine` relate it to updates |
| Checkout.SetField | components/CheckoutModal.tsx:42-45 | an input sets its own field and keeps the seven others |
| Checkout.FieldsDetermine | types.ts:26-35 | two shipping records with the same eight fields are equal |
| Checkout.SetFieldSame | components/CheckoutModal.tsx:42-45 | setting a field to its current value changes nothing |
| Checkout.Values | components/CheckoutModal.tsx:50 | `Object.values(shipping)`, the eight fields in declaration order |
| Checkout.AllFilled | components/CheckoutModal.tsx:50 | the shipping validation; `Checkout.AllFilledIff` states it field by field |
| Checkout.AllFilledFields | components/CheckoutModal.tsx:50 | the validation holds exactly when none of the eight fields is empty or whitespace only |
| Checkout.NoBlankFieldIff | components/CheckoutModal.tsx:42-45 | naming the eight fields one by one is the same as ranging over the form's inputs |
| Checkout.AllFilledIff | components/CheckoutModal.tsx:50 | the shipping form passes exactly when no field is empty or whitespace only |
| Checkout.EmptyShippingFails | components/CheckoutModal.tsx:24-33 | the initial empty form does not pass |
| Checkout.Tax | components/CheckoutModal.tsx:39 | the tax is exactly a tenth of the subtotal |
| Checkout.Total | components/CheckoutModal.tsx:38-40 | the total is the subtotal plus free shipping plus the tax |
| Checkout.TotalsSpec | components/CheckoutModal.tsx:37-40 | the total is 1.1 × the subtotal; for non-negative prices and quantities the subtotal is non-negative and the total at least the subtotal |
| Checkout.CurrentIndex | components/CheckoutModal.tsx:73 | the step's position in shipping, payment, review, success |
| Checkout.Highlighted | components/CheckoutModal.tsx:80-85 | a label's circle and caption are gold; `Checkout.ProgressSpec` states for which labels |
| Checkout.Checked | components/CheckoutModal.tsx:83-90 | a label shows a check mark, and the connector after it is gold; `Checkout.ProgressSpec` states for which labels |
| Checkout.ProgressSpec | components/CheckoutModal.tsx:71-95 | a label is gold exactly up to the current step and checked exactly before it; checked implies gold |
| Checkout.Offered | components/CheckoutModal.tsx:98-300 | which controls each step puts on screen and enables, and whether the timer is pending |
| Checkout.BackTarget | components/CheckoutModal.tsx:217-288 | where a step's back button leads; `Checkout.BackEdges` states it |
| Checkout.Apply | components/CheckoutModal.tsx:42-69 | the wizard's handlers as one transition; the `Spec` lemmas below state each, and `Checkout.StepEdges` the step changes |
| Checkout.Placed | components/CheckoutModal.tsx:67 | the record the timer hands to `onPlaceOrder`; `Checkout.OrderDoneSpec` proves it is the pending one |
| Checkout.ApplyConsistent | components/CheckoutModal.tsx:59-69 | every handler keeps the pending timer and the processing flag in step |
| Checkout.ShippingSubmitSpec | components/CheckoutModal.tsx:47-53 | the submit advances to payment exactly when every field is non-blank, and changes nothing otherwise |
| Checkout.PaymentSubmitSpec | components/CheckoutModal.tsx:55-57 | the payment submit goes to the review, whatever the method |
| Checkout.InputSpec | components/CheckoutModal.tsx:42-45 | on the shipping step an input changes that field and nothing else |
| Checkout.StepEdges | components/CheckoutModal.tsx:47-69 | every step change is a forward step or a back/edit link, and the success step is never left |
| Checkout.BackEdges | components/CheckoutModal.tsx:217 | each back and edit link leads where its button says: payment to shipping, and review to shipping or to payment |
| Checkout.PlaceOrderSpec | components/CheckoutModal.tsx:59-60 | place-order starts processing with the current record pending; it is disabled while processing |
| Checkout.OrderDoneSpec | components/CheckoutModal.tsx:62-68 | the timer ends processing, sets the drawn order number, shows success and hands the pending record to `onPlaceOrder` |
| Checkout.CheckoutScenario | components/CheckoutModal.tsx:47-69 | from a filled form, the three submits and the timer reach success with exactly one order, for the record entered |
| Checkout.SuccessMessage | components/CheckoutModal.tsx:309 | the success line, `replace('{id}', orderId)` of the template; `Checkout.SuccessMessageSpec` states what it shows |
| Checkout.SuccessMessageSpec | components/CheckoutModal.tsx:309 | the success message shows the order number in place of `{id}` |
| Checkout.ReopenAsWritten | components/CheckoutModal.tsx:19-35 | reopening keeps the step and the order number |
| Checkout.SuccessSticksAsWritten | components/CheckoutModal.tsx:19-35 | as written, after success no sequence of actions leaves success, changes the order number or places another order |
| Checkout.Reopened | components/CheckoutModal.tsx:19-22 | the corrected reopening of "## Findings", which the code does not do: back to the initial values of these lines for a finished wizard; reopening a finished wizard starts at shipping with the card and no order number, keeping the record; one in progress is unchanged |
| Checkout.ReopenPlacesAgain | components/CheckoutModal.tsx:47-69 | after reopening a finished wizard, the three submits and the timer place a new order |
| Checkout.Wizard.constructor | components/CheckoutModal.tsx:19-33 | the first render: shipping, the card, not processing, no order number, an empty form |
| Checkout.Wizard.InputChange | components/CheckoutModal.tsx:42-45 | the new state is the input transition of the old |
| Checkout.Wizard.ShippingSubmit | components/CheckoutModal.tsx:47-53 | the new state is the shipping-submit transition of the old |
| Checkout.Wizard.ChoosePaymentMethod | components/CheckoutModal.tsx:125-157 | the new state is the method-choice transition of the old |
| Checkout.Wizard.PaymentSubmit | components/CheckoutModal.tsx:55-57 | the new state is the payment-submit transition of the old |
| Checkout.Wizard.GoBack | components/CheckoutModal.tsx:217 | the new state is the back transition of the old |
| Checkout.Wizard.EditShippingDetails | components/CheckoutModal.tsx:239 | the new state is the review's edit-shipping transition |
| Checkout.Wizard.EditPaymentMethod | components/CheckoutModal.tsx:247 | the new state is the review's edit-payment transition |
| Checkout.Wizard.FinalOrder | components/CheckoutModal.tsx:59-62 | the new state is the place-order transition of the old |
| Checkout.Wizard.FinalOrderDone | components/CheckoutModal.tsx:62-68 | the new state is the timer transition, and the record returned is the pending one |
| Admin.NewDraft | components/AdminPanel.tsx:31-42 | `handleNewProduct`'s draft; `Admin.NewDraftNotSavable` and `Admin.NewDraftAddedToSeed` state what saving it does |
| Admin.IdExists | components/AdminPanel.tsx:56 | `products.some(p => p.id === id)`; `Admin.IdExistsIff` states it through the ids |
| Admin.IdExistsIff | components/AdminPanel.tsx:56 | `products.some(p => p.id === id)` holds exactly when the id is among the catalog ids |
| Admin.SavedImages | components/AdminPanel.tsx:50-52 | the saved images are the draft's when it has any, and the fallback image alone otherwise |
| Admin.Finalized | components/AdminPanel.tsx:48-53 | the product a save hands the store: the draft with `SavedImages` |
| Admin.SaveCallFor | components/AdminPanel.tsx:44-61 | `handleSave`'s choice of no call, `onUpdateProduct` or `onAddProduct`; `Admin.SaveSpec` states when each is made |
| Admin.DraftAfterSave | components/AdminPanel.tsx:44-63 | the draft after `handleSave`; `Admin.SaveSpec` states when it is cleared |
| Admin.AfterCall | App.tsx:87-93 | the catalog after the store handles the call; `Admin.SaveLands` states where the saved product lands |
| Admin.SaveSpec | components/AdminPanel.tsx:44-63 | without a draft or with an empty title nothing is called and the draft stays; otherwise update is called exactly when the id exists and add otherwise, with at least one image, and the draft is cleared |
| Admin.SaveLands | components/AdminPanel.tsx:44-63 | a saved draft is in the catalog afterwards; an update keeps the ids, an add puts the new id first, and ids stay unique |
| Admin.NewDraftNotSavable | components/AdminPanel.tsx:31-45 | a new draft has an empty title, so saving it calls nothing and keeps it |
| Admin.NewDraftAddedToSeed | components/AdminPanel.tsx:33 | a titled new draft saved over the seed catalog is added, since no seed id starts with `new_` |
| Admin.DeleteCall | components/AdminPanel.tsx:65-67 | the deletion `handleDelete` requests; `Admin.DeleteSpec` states when |
| Admin.DraftAfterDelete | components/AdminPanel.tsx:68-70 | the draft after `handleDelete`; `Admin.DeleteSpec` states when it is cleared |
| Admin.DeleteSpec | components/AdminPanel.tsx:65-72 | without confirmation nothing happens; with it the id is deleted, and the draft is cleared exactly when it is that product |
| Admin.SpliceStart | components/AdminPanel.tsx:92 | `splice`'s start position lies within the list; negative indices count from the end |
| Admin.Splice1 | components/AdminPanel.tsx:91-92 | `splice(index, 1)` on a copy; `Admin.Splice1Spec` states what it removes and `Admin.SpliceOne` computes it in place |
| Admin.Splice1Spec | components/AdminPanel.tsx:89-94 | removing at a valid index shifts the later images left and drops exactly that one; an index past the end, or an empty list, changes nothing |
| Admin.SpliceOne | components/AdminPanel.tsx:91-92 | the in-place copy-and-shift gives `splice(index, 1)` |
| Admin.FeaturesText | components/AdminPanel.tsx:224 | the features input's text, `join(', ')`; `Admin.FeaturesRoundTrip` proves `ParseFeatures` reads it back |
| Admin.ParseFeatures | components/AdminPanel.tsx:225 | a typed value split at commas with every piece trimmed; `Admin.FeaturesRoundTrip` and `Admin.EmptyFeaturesText` state what it reads |
| Admin.TrimAll | components/AdminPanel.tsx:225 | `map(s => s.trim())`, position by position |
| Admin.JoinSpaced | components/AdminPanel.tsx:224 | joining with ", " is joining the space-prefixed pieces with "," |
| Admin.FeaturesRoundTrip | components/AdminPanel.tsx:224-225 | a non-empty list of trimmed, comma-free features survives being shown and read back |
| Admin.EmptyFeaturesText | components/AdminPanel.tsx:224-225 | an empty list shows as an empty field, and an empty field reads back as one empty feature |
| Admin.Panel.constructor | components/AdminPanel.tsx:25 | no draft |
| Admin.Panel.NewProduct | components/AdminPanel.tsx:31-42 | the draft is the defaults with id `new_<now>` |
| Admin.Panel.Select | components/AdminPanel.tsx:116 | the draft is the clicked product |
| Admin.Panel.Cancel | components/AdminPanel.tsx:263 | the draft is cleared |
| Admin.Panel.Save | components/AdminPanel.tsx:44-63 | the call made and the new draft are those of the save decision |
| Admin.Panel.Delete | components/AdminPanel.tsx:65-72 | the deletion requested and the new draft are those of the delete decision |
| Admin.Panel.ImageLoaded | components/AdminPanel.tsx:78-84 | the data URL is appended to the draft's images |
| Admin.Panel.RemoveImage | components/AdminPanel.tsx:89-94 | without a draft nothing changes; otherwise only the images change, by `splice(index, 1)` |
| Admin.Panel.SetTitle | components/AdminPanel.tsx:183 | only the title changes |
| Admin.Panel.SetPrice | components/AdminPanel.tsx:192 | only the price changes |
| Admin.Panel.SetCategory | components/AdminPanel.tsx:200 | only the category changes |
| Admin.Panel.SetDescription | components/AdminPanel.tsx:214 | only the description changes |
| Admin.Panel.SetFeaturesText | components/AdminPanel.tsx:225 | only the features change, to the parsed text |
| Admin.Panel.SetStock | components/AdminPanel.tsx:235 | only the stock changes |
| Admin.Panel.ShowsDelete | components/AdminPanel.tsx:253 | the delete button's condition; `Admin.Panel.ShowsDeleteIff` states it |
| Admin.Panel.ShowsDeleteIff | components/AdminPanel.tsx:253 | the delete button shows exactly when the draft's id is among the catalog ids, which for a titled draft is exactly when saving it updates rather than adds |
| Concierge.InsertByLength | components/GeminiStylist.tsx:99 | inserting a title adds exactly it to the multiset |
| Concierge.InsertSorted | components/GeminiStylist.tsx:99 | inserting into a longest-first list keeps it longest-first |
| Concierge.SortByLength | components/GeminiStylist.tsx:99 | `sort((a, b) => b.length - a.length)`: longest first, and a permutation of the input |
| Concierge.SearchTitles | components/GeminiStylist.tsx:99 | the titles searched for are longest first, and are exactly the non-empty product titles |
| Concierge.MatchesAt | components/GeminiStylist.tsx:107 | a title occurs at a position, ignoring case as the `i` flag does |
| Concierge.TitleAt | components/GeminiStylist.tsx:107 | the alternative the pattern takes at a position; `Concierge.FirstMatch` and `Concierge.LongestFirst` state which |
| Concierge.FirstMatch | components/GeminiStylist.tsx:107 | the first title in the list that matches case-insensitively at the position, or that none does |
| Concierge.LongestFirst | components/GeminiStylist.tsx:98-107 | the title matched at a position is at least as long as any other title matching there |
| Concierge.Scan | components/GeminiStylist.tsx:107-112 | the matches `split` finds with the global pattern; the next three lemmas state where they lie and which titles they are |
| Concierge.ScanSpans | components/GeminiStylist.tsx:112 | the matches lie within the line, in order, without overlapping |
| Concierge.ScanPicks | components/GeminiStylist.tsx:107-112 | each match has the length of the title the pattern picks at its start: the first title, longest first, that matches there |
| Concierge.ScanCovers | components/GeminiStylist.tsx:107-112 | every position where some title matches lies within a match |
| Concierge.Parts | components/GeminiStylist.tsx:112 | `line.split(pattern)` with the capturing group; the next five lemmas state its parts |
| Concierge.PartsConcat | components/GeminiStylist.tsx:112 | splitting a line around its matches loses no text |
| Concierge.PartsLength | components/GeminiStylist.tsx:112 | `split` with a capturing group gives 2 × matches + 1 parts |
| Concierge.PartsOdd | components/GeminiStylist.tsx:112 | the odd parts are the matched texts |
| Concierge.PartsEven | components/GeminiStylist.tsx:112 | the even parts are the gaps between matches |
| Concierge.GapNotCovered | components/GeminiStylist.tsx:112 | no position of a gap lies within a match |
| Concierge.FindTitle | components/GeminiStylist.tsx:118 | `products.find` by case-insensitive title: the first such product, or that there is none |
| Concierge.RenderPart | components/GeminiStylist.tsx:116-132 | a part as a product link or plain text; `Concierge.RenderPartSpec` states which |
| Concierge.RenderPartSpec | components/GeminiStylist.tsx:116-132 | a part keeps its text; it becomes a link exactly when some product's title equals it case-insensitively, and then to the first such product |
| Concierge.SearchTitlesNonEmpty | components/GeminiStylist.tsx:99 | `filter(Boolean)` leaves no empty title |
| Concierge.LineMatches | components/GeminiStylist.tsx:107-112 | the matches found in a line lie within it, in order, without overlapping |
| Concierge.LineParts | components/GeminiStylist.tsx:112 | the parts of one line, split around its matches |
| Concierge.RenderLine | components/GeminiStylist.tsx:112-133 | a line renders as its parts, each rendered on its own |
| Concierge.RenderLineText | components/GeminiStylist.tsx:112-133 | the rendered parts spell out the line |
| Concierge.TitleLinks | components/GeminiStylist.tsx:118-120 | a part equal to a searched title, case-insensitively, is a link |
| Concierge.LinkedIsTitle | components/GeminiStylist.tsx:118-120 | when no title is empty, a linked part is a searched title of the same length |
| Concierge.MatchIsTitle | components/GeminiStylist.tsx:107-112 | the text of each match is, ignoring case, one of the titles searched for |
| Concierge.OddPartLinks | components/GeminiStylist.tsx:112-130 | every match becomes a product link |
| Concierge.GapIsNoTitle | components/GeminiStylist.tsx:112 | a gap between matches is not itself a searched title |
| Concierge.EvenPartPlain | components/GeminiStylist.tsx:112-132 | when no product title is empty, every gap renders as plain text |
| Concierge.RenderLineLinks | components/GeminiStylist.tsx:110-133 | the parts alternate: plain gaps (when no title is empty) and a link for each match |
| Concierge.RenderReply | components/GeminiStylist.tsx:95-136 | `renderMessageContent`; `Concierge.UntitledReplyUnsplit`, `Concierge.ReplyLines` and `Concierge.RenderMessageText` state what it shows |
| Concierge.RenderMessage | components/GeminiStylist.tsx:172-176 | a bubble: the user's lines plain, a reply through `RenderReply`; `Concierge.UserMessagePlain` and `Concierge.RenderMessageText` state what it shows |
| Concierge.UserMessagePlain | components/GeminiStylist.tsx:172-173 | a user message is split into lines with no link |
| Concierge.ReplyLines | components/GeminiStylist.tsx:110 | a reply rendered in paragraphs has one paragraph per line of its text |
| Concierge.RenderMessageText | components/GeminiStylist.tsx:95-136 | rendering never changes the text: the paragraphs joined with line breaks give it back |
| Concierge.UntitledReplyUnsplit | components/GeminiStylist.tsx:96-101 | with no product titles the reply is shown as it is |
| Concierge.Greeting | components/GeminiStylist.tsx:21-26 | the greeting, id "1" from the model; `Concierge.Chat.LanguageChanged` resets the transcript to it |
| Concierge.UserMessage | components/GeminiStylist.tsx:47-52 | the user's message, with the clock reading as id; `Concierge.Chat.BeginSend` appends it |
| Concierge.ReplyMessage | components/GeminiStylist.tsx:66-81 | the answer, or the error text flagged as an error; `Concierge.ReplyMessageSpec` states it |
| Concierge.ReplyMessageSpec | components/GeminiStylist.tsx:66-81 | the assistant's message carries the reply, or the error text with the error flag when the call failed |
| Concierge.History | components/GeminiStylist.tsx:58-61 | the history sent is the role and text of every earlier message, in order |
| Concierge.MaySend | components/GeminiStylist.tsx:41 | the send guard; `Concierge.MaySendSpec` states it |
| Concierge.MaySendSpec | components/GeminiStylist.tsx:41 | a send goes ahead exactly when the input is not blank and no reply is pending |
| Concierge.Chat.constructor | components/GeminiStylist.tsx:15-29 | no messages, an empty input, not loading |
| Concierge.Chat.LanguageChanged | components/GeminiStylist.tsx:20-27 | the transcript is reset to the single greeting |
| Concierge.Chat.SetInput | components/GeminiStylist.tsx:199 | only the input changes |
| Concierge.Chat.BeginSend | components/GeminiStylist.tsx:40-64 | a refused send changes nothing; otherwise the input is cleared, the user message is appended, loading starts, and the history is that of the earlier messages |
| Concierge.Chat.EndSend | components/GeminiStylist.tsx:63-84 | the reply or error message is appended and loading stops |
| Carousel.Next | components/ProductCard.tsx:44 | next with wrap-around; `Carousel.StepsInRange`, `Carousel.NextPrevInverse` and `Carousel.NextWrap` state it |
| Carousel.Prev | components/ProductCard.tsx:39 | previous with wrap-around; `Carousel.StepsInRange` and `Carousel.NextPrevInverse` state it |
| Carousel.PreloadNext | components/ProductCard.tsx:31 | the preloaded index; `Carousel.PreloadIsNext` proves it is the one next shows |
| Carousel.ShowsControls | components/ProductCard.tsx:92 | the arrows and dots appear only for more than one image; `ProductCard.Card.Preload` uses the same condition |
| Carousel.JsRem | components/ProductCard.tsx:31 | JavaScript's `%`: the sign of the dividend, below the divisor in size |
| Carousel.StepsInRange | components/ProductCard.tsx:37-45 | previous and next of an index in range stay in range |
| Carousel.NextPrevInverse | components/ProductModal.tsx:66-74 | previous and next undo each other |
| Carousel.NextWrap | components/ProductCard.tsx:42-45 | next is adding one with wrap-around |
| Carousel.NextTimesRotates | components/ProductCard.tsx:42-45 | `n` presses of next advance the index by `n` with wrap-around |
| Carousel.NextFullCircle | components/ProductCard.tsx:42-45 | as many presses as images come back to the start |
| Carousel.PreloadIsNext | components/ProductCard.tsx:29-35 | the preloaded index is the one next would show |
| Carousel.Dots | components/ProductCard.tsx:111-115 | one dot per image |
| Carousel.OneDotHighlighted | components/ProductCard.tsx:111-115 | for an index in range exactly one dot, the current one, is highlighted |
| Carousel.FalseDots | components/ProductCard.tsx:111-115 | for an index out of range no dot is highlighted |
| ProductCard.Card.constructor | components/ProductCard.tsx:19-21 | the first image, index 0 |
| ProductCard.Card.ShowProduct | components/ProductCard.tsx:24-26 | a new product keeps the index, and the image shown is the new product's image at that index |
| ProductCard.Card.Step | components/ProductCard.tsx:24-26 | a new index reloads the image source; the same index keeps it |
| ProductCard.Card.PrevImage | components/ProductCard.tsx:37-40 | the index moves back with wrap-around and stays in range |
| ProductCard.Card.NextImage | components/ProductCard.tsx:42-45 | the index moves forward with wrap-around and stays in range |
| ProductCard.Card.ImageError | components/ProductCard.tsx:47-49 | the fallback image is shown; nothing else changes |
| ProductCard.Card.Preload | components/ProductCard.tsx:29-35 | preloading happens exactly when there is more than one image, and then of the next image |
| ProductCard.BrowsingShowsImages | components/ProductCard.tsx:37-45 | any sequence of presses from the first image keeps the index on an image |
| ProductCard.BrowseInRange | components/ProductCard.tsx:37-45 | any sequence of presses keeps an index in range |
| ProductModal.Modal.constructor | components/ProductModal.tsx:32-33 | no product, index 0, an empty source |
| ProductModal.Modal.ShowProduct | components/ProductModal.tsx:38-48 | a product resets the index to 0 and shows its first image; closing keeps index and source |
| ProductModal.Modal.Step | components/ProductModal.tsx:44-48 | a new index reloads the main image; the same index keeps it |
| ProductModal.Modal.PrevImage | components/ProductModal.tsx:66-69 | the index moves back with wrap-around and stays in range |
| ProductModal.Modal.NextImage | components/ProductModal.tsx:71-74 | the index moves forward with wrap-around and stays in range |
| ProductModal.Modal.SelectThumbnail | components/ProductModal.tsx:141-146 | the index becomes the thumbnail's, in range, and its image is shown |
| ProductModal.Modal.ImageError | components/ProductModal.tsx:114 | the fallback image is shown; nothing else changes |
| ProductModal.Modal.Displayed | components/ProductModal.tsx:111 | the image shown is the source, or the fallback when the source is empty or missing; never empty |
| ProductModal.Modal.Preloads | components/ProductModal.tsx:51-62 | the preloaded images are the next and previous ones |
| ProductModal.Modal.LowStockBadge | components/ProductModal.tsx:180-181 | the badge is shown exactly when the stock is below 5 |
| ProductModal.Modal.AddAndClose | components/ProductModal.tsx:238 | the product goes into the cart and the modal closes |
| ProductModal.LowStockBadgeText | components/ProductModal.tsx:181 | the badge shows the stock in place of `{n}` |
| ProductModal.OpenThenBrowse | components/ProductModal.tsx:38-48 | opening a product shows its first image, or the fallback when it has none |
| CartDrawer.LineSum | components/CartDrawer.tsx:19 | the sum of the line totals from the first line on, a reference for the drawer's total |
| CartDrawer.TotalIsLineSum | components/CartDrawer.tsx:19 | the drawer's total is the sum of the line totals shown, and equals the checkout subtotal |
| CartDrawer.LineOf | components/CartDrawer.tsx:54-94 | one line of the drawer: id, quantity, line total and whether minus is enabled |
| CartDrawer.Render | components/CartDrawer.tsx:36-115 | the drawer; `CartDrawer.RenderSpec` states what it shows |
| CartDrawer.RenderSpec | components/CartDrawer.tsx:36-115 | the header counts lines; the empty notice shows exactly for an empty cart and the footer otherwise; one line per item with its total, and minus enabled above quantity 1 |
| CartDrawer.HeaderCountIsLines | components/CartDrawer.tsx:36 | the header's count is at most the icon's count, and equal to it exactly when every quantity is 1 |
| CartDrawer.MinusRequest | components/CartDrawer.tsx:75 | minus asks for `updateQty(id, -1)` |
| CartDrawer.PlusRequest | components/CartDrawer.tsx:83 | plus asks for `updateQty(id, 1)` |
| CartDrawer.RemoveRequest | components/CartDrawer.tsx:90 | remove asks for `removeFromCart(id)` |
| CartDrawer.Handle | App.tsx:115-127 | the store handling a request; `CartDrawer.QtyButtons` and `CartDrawer.RemoveButton` state what each button does |
| CartDrawer.QtyButtons | components/CartDrawer.tsx:74-86 | plus raises that line by one; an enabled minus lowers it by one; a disabled minus changes nothing; other lines stay |
| CartDrawer.RemoveButton | components/CartDrawer.tsx:89-91 | remove deletes exactly that line, keeping the others in order |
| CompareBar.Render | components/CompareBar.tsx:15-61 | the bar, or nothing; `CompareBar.RenderSpec` states what it shows |
| CompareBar.RenderSpec | components/CompareBar.tsx:15-61 | the bar is hidden exactly when nothing is compared; it shows a count, one thumbnail per product, the free slots below three, and compare enabled from two |
| CompareBar.BarOfSelection | components/CompareBar.tsx:42-45 | for the store's selection the free-slot box is missing exactly when three products are compared |
| CompareBar.RemoveRequest | components/CompareBar.tsx:33 | a thumbnail's remove sends its product's id |
| CompareBar.RemoveThumbnail | components/CompareBar.tsx:29-33 | a thumbnail's remove drops that product from the bar and keeps the others |
| CompareBar.ClearHides | components/CompareBar.tsx:52 | after clearing, the bar is hidden |

## Left out

- Browser storage and JSON are not modelled. What storage held at startup is an `Option` parameter of `App.Shop.constructor`. Whether a catalog is saved is a `saved` parameter of `App.Shop.SetLanguage`. The save effects (`App.tsx:61-63`, `80-82`) and the quota handling of `safeSetItem` are left out.
- `alert`, `window.confirm`, `console` and `setTimeout` are not modelled as such. The limit alert is the `limitNotice` result of `App.Shop.ToggleCompare`. The confirmation is the `confirmed` argument of `Admin.Panel.Delete`. The two-second timer is the `OrderDone` action, offered while the order is pending.
- `Math.random` is left out. The drawn order number is a `Draw` parameter.
- `Date.now()` and `new Date()` are left out. The clock is a `now` parameter, and timestamps are integers.
- The assistant service (`services/geminiService.ts`) is not part of this model. A reply is an `Option` parameter of `Concierge.Chat.EndSend`, with None for a failed call.
- The video studio (`components/VeoStudio.tsx`) and the rendering-only components (`Header`, `Hero`, `CompareModal`, `WishlistDrawer`) are not part of this model.
- The `FileReader` read of an uploaded image is left out. `Admin.Panel.ImageLoaded` is the arrival of its data URL. A read that finishes after the draft was cleared is not modelled.
- `new Image()` preloading is left out. Only the preloaded indices are computed.
- Floating point is left out. Prices and quantities are integers and the tax is an exact rational. `Number()` of a typed price or stock is the integer argument of `Admin.Panel.SetPrice` and `Admin.Panel.SetStock`.
- `toLocaleString` formatting is left out.
- Case folding covers ASCII letters only (`Text.Lower`). JavaScript's Unicode `toLowerCase` is not modelled.
- The regular expression is not modelled as a regex. The concierge's title pattern is an explicit scan: the leftmost position, then the first title in longest-first order that matches there. Escaping is therefore unnecessary and is left out.
- `Concierge.SortByLength` is proved sorted and a permutation. It is not proved stable, though JavaScript's `sort` is stable. Titles of equal length may therefore be ordered differently. The first matching title is still chosen among them.
- The translation tables are left out. Greetings, success messages and badge templates are string parameters.
- The browser's form validation of the shipping inputs is left out: the `required` attributes and the email input's `type="email"` format check (`components/CheckoutModal.tsx:102-109`). Only the handler's own check is modelled.
- Share, the clipboard and `showCopied` in the product modal are left out.
- The `{email}` replacement on the success screen is left out.
- `$` replacement patterns in `String.replace` are left out.
- Hover state is left out.
- The admin draft is a full `Product` rather than a `Partial<Product>`. Every way of obtaining a draft sets all fields.
- ProductCard.Card.ShowProduct: as written, the card does not reset its index when it is given a different product. The image source then becomes undefined when the new product has fewer images. The model states this rather than an in-range guarantee.

## Findings

| source | as written | input that shows it | evidently intended | confidence | as-written member | corrected member |
|---|---|---|---|---|---|---|
| components/CheckoutModal.tsx:19-35 | The wizard's state is held in hooks that run before `if (!isOpen) return null`, in a component that stays mounted while closed (`App.tsx:350-356`). Closing it after success keeps step `success` and the old order number. | Place an order, press continue, add a product and open checkout again from the drawer. The wizard shows the previous success screen, with only the continue button, which closes it again, and no way to place the new order. | Reopening a finished wizard starts over at the shipping step, so the new cart can be ordered. | medium; not executed | Checkout.SuccessSticksAsWritten | Checkout.Reopened |
