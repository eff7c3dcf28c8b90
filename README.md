# Restaurant ordering client — a Dafny model

This project models the client-side logic of a restaurant ordering web app.
Guests open a table session from a QR code, browse the menu, build a cart and
place an order. An assistant can suggest a main dish, a side dish and a drink.
A payment page shows the restaurant's active bank account, and a review page
collects a star rating. The backend, the suggestion service and the browser
are outside the model.

One module per source file, plus two shared modules:

- `Wrappers`: an `Option` type.
- `Text`: the JavaScript string operations the components use, stated over
  `seq<char>`. These are `startsWith`, `includes`, `trim`, `toLowerCase`,
  `padStart`, decimal rendering, `join` and `split`.

Where the source changes state step by step, the model is a class whose
methods state their whole new state:

- `UnpaidOrders` and `TableSession` model the two uses of sessionStorage.
- `Auth` models localStorage.
- Each page or component has its own class: `OrderPageState`, `AssistantPanel`,
  `ProductImageView`, `SessionPanel`, `PaymentPage` and `RatingForm`.

Each method is tied to a pure function that states the decision, and lemmas
state the properties of that function.

The outside world comes in as parameters:

- the clock is a `now` argument (two arguments where the source reads it twice);
- each network request is a value saying how it ended: `FetchOutcome`,
  `SuggestOutcome`, `SubmitOutcome`, or an `ApiResponse` handed to the method;
- JSON is abstracted: a storage slot holds either a decoded value or something
  that does not read back.

## Model

| member | source | states |
|---|---|---|
| UnpaidOrders.Key | src/lib/unpaid-orders.ts:11-13 | the key is the fixed prefix followed by the session id, which can be read back after the prefix |
| UnpaidOrders.KeyInjective | src/lib/unpaid-orders.ts:11-13 | different sessions never share a cache slot |
| UnpaidOrders.KeyIsNotTableSessionKey | src/lib/unpaid-orders.ts:1-13 | no cache key equals the table-session key, so the two users of sessionStorage never overwrite each other |
| UnpaidOrders.Prepended | src/lib/unpaid-orders.ts:29-33 | after an add the id is present, occurring once if it was absent and as often as before if present; every other id keeps its count; a list without duplicates stays without duplicates |
| UnpaidOrders.PrependedTwice | src/lib/unpaid-orders.ts:27-33 | adding the same id twice is adding it once |
| UnpaidOrders.Without | src/lib/unpaid-orders.ts:40 | the filter removes every occurrence of the id, keeps every other id's count, and keeps the survivors in their relative order |
| UnpaidOrders.WithoutAbsent | src/lib/unpaid-orders.ts:40 | filtering out an absent id gives the list back unchanged |
| UnpaidOrders.RemoveIdempotent | src/lib/unpaid-orders.ts:39-41 | removing twice leaves the same list as removing once |
| UnpaidOrders.RemoveAfterAdd | src/lib/unpaid-orders.ts:25-41 | removing an id just added to a list that lacked it restores the list |
| UnpaidOrders.UnpaidOrderCache.GetCachedUnpaidOrderIds | src/lib/unpaid-orders.ts:16-22 | an absent slot or one that does not parse to an array reads as `[]`; an array reads as itself |
| UnpaidOrders.UnpaidOrderCache.AddCachedUnpaidOrderId | src/lib/unpaid-orders.ts:25-34 | an id already cached leaves storage untouched; otherwise the slot is rewritten with the id in front; no other session's list changes |
| UnpaidOrders.UnpaidOrderCache.RemoveCachedUnpaidOrderId | src/lib/unpaid-orders.ts:37-42 | the slot is always rewritten with the filtered list, the id is then absent, and no other session's list changes |
| TableSession.Read | src/lib/session.ts:11-35 | a session is returned exactly when a readable one is stored and `now` is not past its expiry, and it is the stored one |
| TableSession.SlotAfterRead | src/lib/session.ts:24-28 | a read either leaves the slot as it was or removes it, and it removes it exactly when the stored session has expired |
| TableSession.Remaining | src/lib/session.ts:76-84 | the remaining time is never negative, is 0 without a live session, and is at most the time to expiry at the read |
| TableSession.ReadIdempotent | src/lib/session.ts:11-35 | a second read at the same instant returns the same thing and changes nothing more |
| TableSession.ExpiredLeavesNoTrace | src/lib/session.ts:25-28 | an expired session is not returned, its slot is gone, and every later read finds nothing |
| TableSession.Created | src/lib/session.ts:45-49 | a new session expires 30 minutes after it is created |
| TableSession.SetThenRead | src/lib/session.ts:40-52 | a session set at `t` reads back unchanged up to 30 minutes later, with at most 30 minutes left |
| TableSession.TableSevenScenario | src/lib/session.ts:40-84 | for a table-7 session, 29 minutes later some time is left; 31 minutes later no session is read and no time is left |
| TableSession.TableSessionStore.GetTableSession | src/lib/session.ts:11-35 | returns `Read` and leaves the slot as `SlotAfterRead` says |
| TableSession.TableSessionStore.SetTableSession | src/lib/session.ts:40-52 | the slot holds the new session with a 30-minute expiry |
| TableSession.TableSessionStore.ClearTableSession | src/lib/session.ts:57-63 | the slot is removed |
| TableSession.TableSessionStore.HasValidSession | src/lib/session.ts:68-70 | true exactly when a read returns a session, with the read's side effect |
| TableSession.TableSessionStore.GetSessionTimeRemaining | src/lib/session.ts:76-84 | returns `Remaining`, with the read's side effect |
| Auth.Check | src/lib/auth.ts:32-66 | no item or an empty one means no record; a record is accepted exactly when it has a numeric, unexpired `expiresAt`, a numeric `userId` and string `name` and `phoneNumber`, and it is then returned with those values; the reason for each rejection follows the order of the checks |
| Auth.SaveThenRead | src/lib/auth.ts:32-77 | a user saved at `t` with lifetime `ttl` reads back unchanged, with `expiresAt = t + ttl`, at any time up to expiry |
| Auth.SaveThenReadLate | src/lib/auth.ts:51-54 | the same record read after its expiry is rejected as expired |
| Auth.LegacyRecordRejected | src/lib/auth.ts:29-49 | a record without `expiresAt` is rejected however well-typed its other fields are |
| Auth.AuthKeys | src/lib/auth.ts:79-85 | the auth state is three distinct keys |
| Auth.LocalStorage.ClearAuthState | src/lib/auth.ts:79-85 | exactly the record and both tokens are removed; every other key keeps its item |
| Auth.LocalStorage.SetUserSession | src/lib/auth.ts:68-77 | the record slot holds the user's fields plus `expiresAt = now + ttl`, where `ttl` defaults to the two-hour lifetime |
| Auth.SaveThenReadDefault | src/lib/auth.ts:14-77 | with the default lifetime of 7,200,000 ms a saved user reads back up to two hours later and is rejected as expired after that |
| Auth.LocalStorage.GetUserSession | src/lib/auth.ts:32-66 | returns the session exactly when `Check` accepts; wipes the three auth keys exactly when `Check` rejects; otherwise nothing changes |
| Api.FetchWithErrorHandling | src/lib/api.ts:45-68 | no `error` exactly when an ok response had a readable body, and then `data` is that body; every failure gives `data = []` with the status message, the thrown message, the message of a body that fails to parse, or "Unknown error occurred" for a thrown non-Error |
| Api.StatusErrorNamesStatus | src/lib/api.ts:55-57 | the status error message starts with "API Error: " followed by the status's decimal digits, which read back as the status |
| Api.GetPlaceholderImage | src/lib/api.ts:147-158 | the glyph is one of the three, and it is the plate when the lower-cased name is not a key |
| Api.OnlyEnglishKeysReachable | src/lib/api.ts:147-158 | as written, only "drinks" and "additional" (any case) give something other than the plate |
| Api.EnglishNamesAnyCase | src/lib/api.ts:152-157 | the English names match in any case |
| Api.DrinkCategoryGetsPlate | src/lib/api.ts:150-157 | the drinks category as the menu spells it gets the plate, not the cup |
| Api.LowerCategoryNames | src/lib/api.ts:149-151 | the lower-case forms of the three Vietnamese category names |
| Api.CategoryPlaceholder | src/lib/api.ts:147-158 | the intended lookup always gives one of the three glyphs |
| Api.CategoryPlaceholderIgnoresCase | src/lib/api.ts:157 | the intended lookup gives the same glyph for a name and its lower-case form |
| Api.CategoryPlaceholderMatchesRecord | src/lib/api.ts:148-157 | every key of the record gets its own glyph under the intended lookup, which agrees with the written one on the English names |
| Api.DrinkCategoryGetsCup | src/lib/api.ts:150 | under the intended lookup the drinks category gets the cup |
| Api.CategoryId | src/lib/api.ts:161-165 | the category ids are 1 to 3 |
| Api.CategoryIdsDistinct | src/lib/api.ts:161-165 | the three category ids are pairwise distinct |
| OrderPage.FindLine | src/app/tao-don-hang/page.tsx:67 | finds the first line for the id; none exactly when no line has it |
| OrderPage.GetProductQuantity | src/app/tao-don-hang/page.tsx:97-100 | 0 when no line has the id; in a valid cart never negative, and a positive result is the quantity of a line for that id |
| OrderPage.QuantityOfLine | src/app/tao-don-hang/page.tsx:97-100 | in a cart with one line per id, each line's quantity is what the page shows for its product |
| OrderPage.Incremented | src/app/tao-don-hang/page.tsx:69-73 | same lines and products; the product's line gains one, the others are unchanged |
| OrderPage.Decremented | src/app/tao-don-hang/page.tsx:83-86 | same lines and products; the product's line loses one but not below 0, the others are unchanged |
| OrderPage.Positive | src/app/tao-don-hang/page.tsx:87 | the filter keeps exactly the lines with positive quantity, in their order |
| OrderPage.PositiveKeepsAll | src/app/tao-don-hang/page.tsx:87 | a cart whose quantities are all positive passes the filter whole |
| OrderPage.PositiveUniqueIds | src/app/tao-don-hang/page.tsx:87 | the filter keeps a cart free of duplicate ids |
| OrderPage.AddToOrder | src/app/tao-don-hang/page.tsx:65-78 | a product with a line gets one more on it and nothing else changes; a new product is appended with quantity 1 |
| OrderPage.RemoveFromOrder | src/app/tao-don-hang/page.tsx:81-89 | the result is exactly the decremented lines whose quantity is still positive, in order |
| OrderPage.AddToOrderProperties | src/app/tao-don-hang/page.tsx:65-78 | adding keeps one line per id with positive quantities, raises the product's quantity by one and leaves every other product's quantity alone |
| OrderPage.RemoveFromOrderProperties | src/app/tao-don-hang/page.tsx:81-89 | removing keeps the cart invariant, lowers the product's quantity by one but not below 0, and leaves every other product's quantity alone |
| OrderPage.RemoveAfterAdd | src/app/tao-don-hang/page.tsx:65-89 | in a valid cart, removing a product right after adding it restores the cart |
| OrderPage.CalculateTotal | src/app/tao-don-hang/page.tsx:92-94 | the empty cart totals 0; with non-negative prices and quantities the total is non-negative |
| OrderPage.TotalAppend | src/app/tao-don-hang/page.tsx:93 | the total of two carts joined is the sum of their totals |
| OrderPage.TotalIncremented | src/app/tao-don-hang/page.tsx:69-73 | one more of a product raises the total by its line's price |
| OrderPage.TotalDecremented | src/app/tao-don-hang/page.tsx:83-86 | in a valid cart, one fewer of a product lowers the total by its line's price |
| OrderPage.TotalPositive | src/app/tao-don-hang/page.tsx:87 | dropping lines of quantity 0 keeps the total |
| OrderPage.AddToOrderTotal | src/app/tao-don-hang/page.tsx:65-94 | adding a product raises the total by its price |
| OrderPage.RemoveFromOrderTotal | src/app/tao-don-hang/page.tsx:81-94 | removing one of a product lowers the total by its line's price, and by nothing without a line |
| OrderPage.Distinct | src/app/tao-don-hang/page.tsx:30-32 | the deduplicated list has the same elements, each once |
| OrderPage.DistinctFirstOccurrenceOrder | src/app/tao-don-hang/page.tsx:30-32 | the deduplicated elements come in the order of their first occurrence |
| OrderPage.CategoryNames | src/app/tao-don-hang/page.tsx:31 | one category name per product, in product order |
| OrderPage.Categories | src/app/tao-don-hang/page.tsx:29-34 | "all" first, then each category that some product has, each once |
| OrderPage.CategoriesInFirstOccurrenceOrder | src/app/tao-don-hang/page.tsx:29-34 | the category buttons follow the first appearance of each category in the menu |
| OrderPage.InCategory | src/app/tao-don-hang/page.tsx:41 | exactly the products of the category, in menu order |
| OrderPage.FilteredProducts | src/app/tao-don-hang/page.tsx:37-42 | "all" shows the whole menu, any other category exactly its products in menu order |
| OrderPage.OrderRequest | src/app/tao-don-hang/page.tsx:114-124 | the request names the placeholder guest and table 0, carries the cart total, and has one item per line with its id, name and quantity and an empty note |
| OrderPage.OrderRequestMatchesCart | src/app/tao-don-hang/page.tsx:114-124 | from a valid cart the request names each product once, with a positive quantity equal to what the page shows |
| OrderPage.OrderPageState.FetchProducts | src/app/tao-don-hang/page.tsx:45-62 | a non-empty error is shown and the menu kept; otherwise the response's products become the menu; loading ends |
| OrderPage.OrderPageState.SelectCategory | src/app/tao-don-hang/page.tsx:185 | only the selected category changes |
| OrderPage.OrderPageState.PressAdd | src/app/tao-don-hang/page.tsx:274 | the cart becomes `AddToOrder` of the old cart, and the cart invariant is kept |
| OrderPage.OrderPageState.PressRemove | src/app/tao-don-hang/page.tsx:265 | the cart becomes `RemoveFromOrder` of the old cart, and the cart invariant is kept |
| OrderPage.OrderPageState.HandleConfirmOrder | src/app/tao-don-hang/page.tsx:103-105 | only opens the confirmation dialog |
| OrderPage.OrderPageState.HandleCancel | src/app/tao-don-hang/page.tsx:406-409 | closes the dialog and clears the submit error |
| OrderPage.OrderPageState.DialogOpenChange | src/app/tao-don-hang/page.tsx:347 | only the dialog's visibility changes; the submit error is kept |
| OrderPage.OrderPageState.HandleFinalConfirm | src/app/tao-don-hang/page.tsx:108-151 | sends `OrderRequest` of the cart; on an error the cart and dialog stay and the error shows; on success the cart empties and the dialog closes; submitting ends |
| AiAssistant.ExactIsPartial | src/components/ai-food-assistant.tsx:40-51 | an exact name match is also a partial one |
| AiAssistant.FirstExact | src/components/ai-food-assistant.tsx:42-44 | the first product whose name equals the dish name ignoring case; none exactly when no name does |
| AiAssistant.FirstPartial | src/components/ai-food-assistant.tsx:48-51 | the first product whose name includes the dish name or is included in it, ignoring case; none exactly when no name does |
| AiAssistant.MatchIndex | src/components/ai-food-assistant.tsx:40-53 | an exact match wins over every partial one, the first match in menu order wins, and nothing is found only when no name matches even partially |
| AiAssistant.FindProductByName | src/components/ai-food-assistant.tsx:40-53 | the product found is the menu entry at the match position, and it is null exactly when there is none |
| AiAssistant.MatchIgnoresCase | src/components/ai-food-assistant.tsx:43 | a dish name and its lower-case form match the same product |
| AiAssistant.SameMatches | src/components/ai-food-assistant.tsx:40-53 | two dish names that lower-case alike match alike |
| AiAssistant.EmptyNameMatchesFirst | src/components/ai-food-assistant.tsx:48-52 | an empty dish name matches the first product of a menu without empty names |
| AiAssistant.AssembleProperties | src/components/ai-food-assistant.tsx:93-108 | at most three dishes in main, side, drink order; each is the candidate for its type, and a type appears exactly when it has a candidate |
| AiAssistant.FirstInCategory | src/components/ai-food-assistant.tsx:63 | the first product of the category in menu order; none exactly when the category is empty |
| AiAssistant.FallbackDishesProperties | src/components/ai-food-assistant.tsx:55-73 | at most three dishes in main, side, drink order; each is the first product of its type's category, and a type appears exactly when that category has a product |
| AiAssistant.GetFallbackDishes | src/components/ai-food-assistant.tsx:55-73 | the loop over the three categories builds `FallbackDishes` |
| AiAssistant.MatchedProperties | src/components/ai-food-assistant.tsx:93-108 | at most three dishes in main, side, drink order; each is the product found for the name given for its type, and a type appears exactly when its name matches |
| AiAssistant.MatchDishes | src/components/ai-food-assistant.tsx:93-108 | the three lookups and pushes build `Matched` |
| AiAssistant.DecideSuggestion | src/components/ai-food-assistant.tsx:82-125 | the steps after the blank-input check build exactly `Suggest`'s decision |
| AiAssistant.Suggest | src/components/ai-food-assistant.tsx:75-129 | a failed request, or an answer none of whose names is on the menu, shows the fallback with the fixed reason; otherwise the matched dishes show with the service's reason |
| AiAssistant.SuggestionShape | src/components/ai-food-assistant.tsx:75-129 | whatever the outcome, at most three dishes, all from the menu, in type order; none only when the menu lacks the three fallback categories |
| AiAssistant.FailureShowsFallback | src/components/ai-food-assistant.tsx:85-125 | a thrown request and an error response both show the fallback |
| AiAssistant.IdTexts | src/components/ai-food-assistant.tsx:134 | one decimal id per suggested dish, in order |
| AiAssistant.ProductIdsRoundTrip | src/components/ai-food-assistant.tsx:134-135 | splitting the `ai` parameter at the commas gives one piece per dish, and each piece names only that dish's product id |
| AiAssistant.GetDishTypeLabel | src/components/ai-food-assistant.tsx:146-152 | every label is non-empty, and only the drink's is the drinks category name |
| AiAssistant.DishTypeLabelInjective | src/components/ai-food-assistant.tsx:146-152 | the three labels are distinct |
| AiAssistant.AssistantPanel.Open | src/components/ai-food-assistant.tsx:158 | only opens the panel |
| AiAssistant.AssistantPanel.HandleQuickSuggestion | src/components/ai-food-assistant.tsx:36-38 | only the input text changes |
| Text.TrimBlank | src/components/ai-food-assistant.tsx:76 | trimming leaves nothing exactly when the text is blank, so the guard tests blankness |
| AiAssistant.AssistantPanel.HandleSubmit | src/components/ai-food-assistant.tsx:75-129 | blank input changes nothing; otherwise the panel shows `Suggest`'s decision and loading ends |
| AiAssistant.AssistantPanel.HandleConfirmOrder | src/components/ai-food-assistant.tsx:131-137 | returns the comma-joined product ids of the suggested dishes and closes the panel |
| AiAssistant.AssistantPanel.HandleClose | src/components/ai-food-assistant.tsx:139-144 | closes the panel and forgets the input, the dishes and the reason |
| ProductImage.NormalizeImageUrl | src/components/product-image.tsx:25-37 | null exactly for a null, empty, blank or literally "null" address; otherwise an address starting with "http" that ends with the trimmed input |
| ProductImage.NormalizeIdempotent | src/components/product-image.tsx:31-34 | normalising a normalised address changes nothing |
| ProductImage.HttpAddressIsFixed | src/components/product-image.tsx:34 | an address starting with "http" that does not end in whitespace is kept as it is |
| ProductImage.PaddedNullIsAHost | src/components/product-image.tsx:26 | the "null" test is made before trimming, so " null" becomes "https://null" |
| ProductImage.GetImageSize | src/components/product-image.tsx:56-61 | the size is 64, 48 or 40; it is 64 exactly when the classes include `w-16`, and 40 exactly when they include `w-10` but neither `w-16` nor `w-12` |
| ProductImage.FixedBoxSizes | src/components/product-image.tsx:56-61 | the order page's, the assistant's and the default class lists give 48 |
| ProductImage.ResponsiveListSize | src/components/product-image.tsx:56-61 | the menu pages' responsive class list gives 64, because it includes `md:w-16` |
| ProductImage.ProductImageView.NormalizeEffect | src/components/product-image.tsx:25-37 | the stored address is `NormalizeImageUrl` of the prop; nothing else changes |
| ProductImage.ProductImageView.OnError | src/components/product-image.tsx:71 | the error flag is set and the view becomes the placeholder marked as failed |
| ProductImage.ProductImageView.Render | src/components/product-image.tsx:39-76 | the image shows exactly when there is an address and no error, in a box keeping the caller's classes; otherwise the category's glyph under the corrected lookup `CategoryPlaceholder` shows (see Findings) |
| SessionInfo.FormatTime | src/components/session-info.tsx:32-36 | the text is digits, a colon and two digits; read back, they are the whole minutes and the seconds (below 60) of the input, which together are the input rounded down to the second |
| SessionInfo.WholeSeconds | src/components/session-info.tsx:33-34 | the seconds field is below 60, and minutes and seconds are the input rounded down to the second |
| SessionInfo.SecondsField | src/components/session-info.tsx:34-35 | the padded seconds are exactly two digits that read back as the seconds |
| SessionInfo.FormatFullSession | src/components/session-info.tsx:32-36 | a full 30-minute session shows "30:00" |
| SessionInfo.FormatNoTimeLeft | src/components/session-info.tsx:32-36 | no time left shows "0:00" |
| SessionInfo.Prefix | src/components/session-info.tsx:64 | the first eight characters of the id, or the whole id when shorter |
| SessionInfo.SessionPanel.Mount | src/components/session-info.tsx:10-15 | the panel shows what the session read returns and starts ticking exactly when that is a session |
| SessionInfo.SessionPanel.Tick | src/components/session-info.tsx:17-26 | the remaining time is stored; when it is 0 the session is dropped and the ticking stops; otherwise the session stays |
| SessionInfo.SessionPanel.HandleClearSession | src/components/session-info.tsx:38-41 | the stored and the shown session are both gone; the interval keeps running |
| SessionInfo.SessionPanel.Render | src/components/session-info.tsx:43-86 | nothing is drawn without a session; otherwise the table, the id prefix and the formatted remaining time |
| Payment.Candidate | src/app/thanh-toan/page.tsx:31-40 | the value checked is the payload or the first element of an array; none exactly for an empty array |
| Payment.SelectBankAccount | src/app/thanh-toan/page.tsx:25-56 | an account is selected exactly when there is no error, the candidate has a non-empty bank name and its status is "ACTIVE", and it is the candidate; otherwise the message matches the failed check: load failure, no account, invalid data, or inactive |
| Payment.OnlyFirstConsidered | src/app/thanh-toan/page.tsx:39 | an array decides as its first element alone would |
| Payment.InactiveFirstHidesActive | src/app/thanh-toan/page.tsx:39-56 | an active account behind an inactive first element is not found |
| Payment.StatusIsCaseSensitive | src/app/thanh-toan/page.tsx:50 | a lower-case "active" status is refused |
| Payment.RefusalMessagesDistinct | src/app/thanh-toan/page.tsx:27-55 | the four refusal messages are distinct, so each names its own cause |
| Payment.RefusalIsShown | src/app/thanh-toan/page.tsx:97-108 | every refusal message is non-empty, so the error view shows it instead of the not-found text |
| Payment.PaymentPage.FetchBankAccount | src/app/thanh-toan/page.tsx:18-63 | the selected account or the refusal message is set and loading ends; from a fresh page exactly one of account and error is set |
| Payment.PaymentPage.Render | src/app/thanh-toan/page.tsx:80-118 | the spinner while loading; the account exactly when it is set and there is no error; otherwise the error message, or the not-found text without one |
| Rating.DisplayRating | src/app/danh-gia/page.tsx:58 | the hovered star wins while there is one, otherwise the committed rating; in range when both are |
| Rating.Stars | src/app/danh-gia/page.tsx:93-108 | five stars, star `i` filled exactly when `i` is at most the displayed value |
| Rating.FilledStarsCount | src/app/danh-gia/page.tsx:102-107 | as many stars are filled as the displayed value says |
| Rating.RatingDescription | src/app/danh-gia/page.tsx:121-128 | a description exists exactly for ratings 1 to 5 |
| Rating.DescriptionsDistinct | src/app/danh-gia/page.tsx:122-128 | different ratings get different descriptions |
| Rating.RatingCaption | src/app/danh-gia/page.tsx:111-115 | "not chosen" exactly for rating 0; otherwise the rating in decimal followed by " sao" |
| Rating.RatingForm.HandleStarClick | src/app/danh-gia/page.tsx:18-20 | only the rating changes, to the clicked star; the 0..5 invariant is kept |
| Rating.RatingForm.HandleStarHover | src/app/danh-gia/page.tsx:23-25 | only the hover value changes, to the hovered star |
| Rating.RatingForm.HandleStarsLeave | src/app/danh-gia/page.tsx:28-30 | the hover value resets to 0, so the committed rating shows again; the rating is untouched |
| Rating.RatingForm.HandleReviewChange | src/app/danh-gia/page.tsx:138-144 | only the comment changes, within the 500-character limit |
| Rating.RatingForm.HandleSubmitReview | src/app/danh-gia/page.tsx:33-48 | with rating 0 only the alert is raised and the dialog does not open; otherwise the dialog opens |
| Rating.RatingForm.HandleModalClose | src/app/danh-gia/page.tsx:51-55 | the dialog closes and the rating and comment reset; the hover value is kept |
| Rating.RatingForm.OnOpenChange | src/app/danh-gia/page.tsx:172 | dismissing the dialog another way only hides it and keeps the rating and comment |
| Rating.RatingForm.FormStars | src/app/danh-gia/page.tsx:93-108 | the number of filled stars in the form is the displayed rating |

## Left out

- Server-side rendering: the `typeof window === "undefined"` guards of the storage helpers. The model always runs in the browser.
- Numbers are integers. Prices are whole VND amounts and times are whole milliseconds; JavaScript floating point is not modelled.
- JSON encoding is abstract. A cached unpaid-order array is taken to hold ids only, so non-numeric elements are not modelled. A table-session record is not validated, as in the source.
- Auth.Check: the source returns the parsed object as it stands, extra fields included. The model returns only the four fields it checks.
- GetPlaceholderImage: a category name equal to an `Object.prototype` member name (such as "constructor") is not modelled.
- Text.LowerChar: lower-casing covers only these capitals: ASCII A–Z; Latin-1 U+00C0–U+00DE except × (U+00D7); the even code points of U+0100–U+012F and U+014A–U+0177; Ơ (U+01A0) and Ư (U+01AF); and the even code points of U+1EA0–U+1EFF. These include every Vietnamese capital. All other characters are left unchanged, among them the Latin Extended-A capitals İ (U+0130), Ĳ–Ķ (U+0132–U+0136), Ĺ–Ň (U+0139–U+0147) and Ÿ, Ź, Ż, Ž (U+0178–U+017D), which JavaScript would lower-case.
- ProductImage.ProductImageView.Render: the placeholder glyph comes from the corrected lookup `Api.CategoryPlaceholder`, not from `getPlaceholderImage` as written at src/components/product-image.tsx:39. So for the category "Đồ uống" the model shows the cup where the source shows the plate; the written behaviour is `Api.GetPlaceholderImage`, and `Api.DrinkCategoryGetsPlate` states the difference.
- Timers are left out: the one-second interval (each firing is a call to `Tick`), mounting and unmounting, and the copy-feedback reset on the payment page.
- The clipboard (`copyToClipboard`) is left out. So are `alert` (returned as a value), console logging and routing (the order page's address is returned as its `ai` parameter).
- The network is left out. `fetch`, `response.json()` and every service call are parameters describing how the call ended.
- `getAISuggestion` and `getActiveBankAccount` are not among the client functions shown in `src/lib/api.ts`. Their responses are parameters shaped like the `ApiResponse` of `fetchWithErrorHandling`.
- A suggestion whose dish names are `null` is not modelled; the names are strings.
- The catch branch of `handleFinalConfirm` is modelled as the `Failed` outcome, but `createOrder` never rejects because `fetchWithErrorHandling` catches everything.
- The catch branch of `fetchBankAccount` is not modelled. Nothing in its try block can throw on the modelled inputs: `getActiveBankAccount` is taken to return an `ApiResponse`, and a missing element is caught by the falsy check before any field is read.
- The `ai` parameter is handed on, but the order page shown never reads it, so nothing is pre-filled from it.
- The history page's own login record (without `expiresAt`) and its logout, which removes only `userData`, are not part of this model. `Auth.LegacyRecordRejected` states how the auth reader treats such a record.
- `formatPrice`, which relies on `Intl.NumberFormat`, and the product management calls of `src/lib/api.ts` are out of scope.
- The quick-suggestion texts and all markup and styling are out of scope, beyond what each `Render` states.
- Rating.RatingForm.HandleReviewChange requires at most 500 characters. The text area's `maxLength` (src/app/danh-gia/page.tsx:143) never lets longer text reach the handler.
- SessionInfo.SessionPanel.Tick requires the panel to be ticking, because the interval that calls it exists only between a mount that found a session and the tick that read 0.
- `getImageSize`'s result is computed but not used by the markup, so `ProductImage.ProductImageView.Render` does not carry it.

## Findings

| source | as written | input that shows it | evidently intended | confidence | as-written member | corrected member |
|---|---|---|---|---|---|---|
| src/lib/api.ts:147-158 | the name is lower-cased before the lookup, but the three Vietnamese keys start with the capital "Đ" (U+0110), which no lower-cased string contains, so they can never match | `getPlaceholderImage("Đồ uống")` looks up "đồ uống" and falls back to the plate instead of the cup | compare lower-cased names with lower-cased keys, so each menu category gets its own glyph in any case | not executed | Api.GetPlaceholderImage (with Api.DrinkCategoryGetsPlate) | Api.CategoryPlaceholder (with Api.DrinkCategoryGetsCup) |
