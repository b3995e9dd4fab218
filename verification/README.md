# Shop bot core, modelled in Dafny

This project models the core of a Telegram shop bot that sells paintings.
Customers browse a catalogue one product at a time, put units into a cart and
move through the cart page by page. An administrator adds, edits and deletes
products through a step-by-step wizard and replaces the banner photos of the
menu pages.

The modules follow the program's files:

- `paginator.dfy` (`Pagination`): the one-item-per-page paginator of
  `paginator/pag.py`. It rejects bad input in a fixed order and gives the
  current item and the next and previous page numbers.
- `store.dfy` (`Store`): the database operations of `database/requests.py`.
  One `Store` object holds the categories, banners, products (a map from id to
  product), users and cart lines. Each operation is one atomic method.
  `Valid()` keeps four invariants:
  - every product is stored under its own id, below the next id to be given;
  - every cart line holds at least one unit;
  - there is at most one line per (user, product) pair;
  - every line's product exists, because deleting a product also deletes its
    lines (`database/models.py:133`).

  Stock itself may be negative, since the admin wizard does not check the
  sign of a quantity. Adding to, reducing and deleting from a cart all keep,
  for every product, its stock plus the units in carts (`Total`) constant.
  None of them takes a stock that was at least 0 below 0.
  `AddUnit`, `DropLine`, `TakeUnit` and `Restock` give the lines and the
  products after each cart action.
- `keyboards.dfy` (`Keyboards`): what `handlers/keyboards.py` checks before it
  builds a keyboard, and the callback payloads the catalogue, product and cart
  keyboards carry.
- `price_format.dfy` (`PriceFormat`): `format_price`, over whole kopecks. A
  reader function, `ReadPrice`, accepts exactly the texts `format_price`
  prints and is proved to invert it.
- `menu.dfy` (`Menu`): `multiplication`, `pages`, `get_menu_content` with
  `catalog` and `products`, and `carts`. `carts` performs the cart action,
  moves the page cursor back where the code does, and then shows one cart line
  with the cart's total.
- `pytext.dfy` (`PyText`): the Python string and dict operations the admin
  handlers rely on:
  - `casefold` and `strip`;
  - `split('_')[-1]` and `str(int)`;
  - building a dict from key/value pairs (a later value for the same key
    replaces the earlier one and keeps its position).
- `wizard.dfy` (`AdminWizard`): the admin handlers of `handlers/admin.py`. One
  `Wizard` object holds three things:
  - the conversation state: none, one of the six product steps, or the banner
    step;
  - the data collected so far;
  - the edit target `AddProduct.product_for_change`.

  Its handlers are methods, and `OnText`, `OnPhoto` and `OnCallback` dispatch
  to them in the order the handlers are registered. `Valid()` is the store's
  invariant together with `Consistent()`, which states two things. With no
  state active there is no collected data and no edit target. On a product
  step, every earlier step has stored its field.

Two things the environment provides are parameters of the `Wizard`: Python's
`float()` on a price and `int()` on a quantity or id. Each is given as the
texts it accepts and the number each gives (an `imap` from text to number);
any other text makes it raise. The only property required of them is that they
reject ".".

The model follows the code:

- "." on the name or description step with no edit target is stored as the
  literal text ".".
- Neither the price step nor the quantity step checks the sign of the number.

The one exception is the image step, described under "## Findings". There
the model uses the corrected step.

## Model

| member | source | states |
|---|---|---|
| Pagination.NewPaginator | paginator/pag.py:34-44 | empty input, then a page below 1, then a page past the end are refused in that order with their own errors; otherwise the paginator holds the items and page, and `pages` is the number of items |
| Pagination.Paginator.GetItem | paginator/pag.py:53-54 | the current item is `items[page-1]` |
| Pagination.Paginator.HasNext | paginator/pag.py:63-65 | there is a next page exactly when `page < pages`, and it is `page+1` |
| Pagination.Paginator.HasPrevious | paginator/pag.py:74-76 | there is a previous page exactly when `page > 1`, and it is `page-1` |
| Pagination.NextThenPrevious | paginator/pag.py:63-76 | opening the next page is always accepted, and from there the previous page leads back |
| Pagination.SingleItemHasNeither | test_proj.py:27-31 | a one-item paginator has no next and no previous page |
| Pagination.Walk | paginator/pag.py:63-65 | following "next" k times stays valid, over the same items, at page + k |
| Pagination.WalkEnumerates | paginator/pag.py:53-65 | starting at page 1 and following "next" k times shows the k-th item, so the pages enumerate the items in order |
| Store.InCartConcat | database/requests.py:300-310 | the units of a product held in carts add up over concatenated line lists (the base of the conservation proofs) |
| Store.FindLine | database/requests.py:296-298 | finds the (user, product) line, or reports that there is none |
| Store.WithoutProduct | database/models.py:133 | the cascade keeps exactly the lines of other products |
| Store.WithoutProductKeepsOthers | database/models.py:133 | the cascade leaves the units of every other product in carts unchanged |
| Store.WithoutProductSubsequence | database/models.py:133 | the cascade keeps "one line per (user, product)" |
| Store.Join | database/requests.py:327-329 | a user's cart has as many entries as the user has lines; every line of that user appears, joined with its product, and no other line does; it is empty exactly when the user has no line |
| Store.SeedCategories | database/requests.py:38-43 | categories are inserted, numbered from 1, only when there are none |
| Store.SeedBanners | database/requests.py:61-66 | banners are inserted with their descriptions and no image only when there are none; the data is a dict, so the seeded names are distinct |
| Store.SeedingTwiceIsSeedingOnce | database/requests.py:38-66 | seeding twice gives the same tables as seeding once |
| Store.AddUserIfAbsent | database/requests.py:264-268 | a user is appended only when the user id is new |
| Store.AddUserTwiceIsOnce | database/requests.py:264-268 | registering the same user id twice equals registering it once |
| Store.SetBannerImage | database/requests.py:83-85 | only the image of banners with that name changes |
| Store.FindBanner | database/requests.py:101-103 | the banner with that name, or none when no banner has it |
| Store.Names | handlers/admin.py:244 | the page names, one per banner, in order |
| Store.Store.GetProduct | database/requests.py:189-191 | the product with that id, or none when it does not exist |
| Store.Store.ProductsIn | database/requests.py:170-172 | exactly the products of the category, in ascending id order |
| Store.Store.UserCart | database/requests.py:327-329 | as many entries as the user has lines; every line of the user appears with its product, and only the user's lines do; each holds at least one unit; empty exactly when the user has no line |
| Store.Store.GetBanner | database/requests.py:101-103 | the banner of a page, or none |
| Store.Store.CreateCategories | database/requests.py:38-43 | the category table becomes its seeded form; nothing else changes |
| Store.Store.AddBannerDescription | database/requests.py:61-66 | the banner table becomes its seeded form; nothing else changes |
| Store.Store.ChangeBannerImage | database/requests.py:83-85 | only the named banners' images change |
| Store.Store.AddProduct | database/requests.py:144-153 | a product with a fresh id (the next one, which then advances) and the six given fields is added; nothing else changes |
| Store.Store.UpdateProduct | database/requests.py:215-225 | all six fields of the product with that id are replaced; a missing id changes nothing |
| Store.Store.DeleteProduct | database/requests.py:241-243 | the product and all its cart lines go; every other product's stock plus carted units is unchanged |
| Store.Store.AddUser | database/requests.py:264-268 | insert-if-absent of the user id |
| Store.Store.AddToCart | database/requests.py:289-313 | refused with nothing changed when the product is missing or out of stock; otherwise stock goes down by 1 and the pair's line goes up by 1 or is created with 1 (`AddUnit`, `Restock`); stock plus carted units is conserved; a stock at least 0 stays at least 0 |
| Store.Store.DeleteFromCart | database/requests.py:344-352 | with a line, its whole quantity returns to stock and the line goes (`DropLine`, `Restock`); without one, nothing changes; conservation; a stock at least 0 stays at least 0 |
| Store.Store.ReduceInCart | database/requests.py:371-386 | a line above 1 loses a unit (true); a line of 1 is deleted (false); no line changes nothing (false); stock gets the unit back (`TakeUnit`, `Restock`); conservation; a stock at least 0 stays at least 0 |
| Store.RemovePreservesLines | database/requests.py:348-352 | deleting a line keeps "one line per (user, product)" and keeps only lines that were there |
| Store.RemoveFoundLine | database/requests.py:348-352 | after the pair's line is deleted, the pair has no line |
| Keyboards.GetKeyboard | handlers/keyboards.py:59-70 | no buttons and a non-string button raise their own errors; otherwise one button per text, in order |
| Keyboards.EntryError | handlers/keyboards.py:94-100 | which of the three errors a dict entry raises: both non-strings, key only, value only |
| Keyboards.FirstEntryError | handlers/keyboards.py:94-100 | there is no entry error exactly when every key and value is a string |
| Keyboards.FirstEntryErrorAt | handlers/keyboards.py:94-100 | the first bad entry decides the error |
| Keyboards.GetCallbackButtons | handlers/keyboards.py:90-107 | not a dict, then empty, then the first bad entry are refused in that order; otherwise one button per entry, in order, with its text and callback data |
| Keyboards.CatalogKeyboard | handlers/keyboards.py:126-129 | one button per category, named after it, with payload level+1, the category's name and the category's id |
| Keyboards.GetUserCatalogButtons | handlers/keyboards.py:124-131 | builds the catalogue keyboard |
| Keyboards.NavRow | handlers/keyboards.py:157-171 | every navigation button carries the next or the previous payload |
| Keyboards.NavRowHas | handlers/keyboards.py:158-171 | a "next" button is in the row exactly when the pagination has a "next" entry with that text; the same for "previous" |
| Keyboards.GetProductsButtons | handlers/keyboards.py:151-173 | a buy button (`add_to_cart`, same level, product id) and a row whose next and previous map to page+1 and page-1 |
| Keyboards.CartActions | handlers/keyboards.py:194-205 | delete, -1 and +1 carry the page and product id; order carries page 1 and no product |
| Keyboards.GetUserCart | handlers/keyboards.py:192-220 | the four cart actions and a row whose next and previous map to page+1 and page-1 |
| PriceFormat.Digits | handlers/admin.py:111 | decimal digits with no leading zero |
| PriceFormat.Grouped | handlers/admin.py:111 | the digits with spaces, and nothing but digits and spaces |
| PriceFormat.GroupedShape | handlers/admin.py:111 | the groups are of three: a non-empty digit string of length n gains (n-1)/3 spaces, and a space stands exactly at every fourth place counted from the right |
| PriceFormat.FormatPrice | handlers/admin.py:107-111 | a non-number is refused, then a negative amount; otherwise a leading space, the whole part, a point, two decimals and " ₽" |
| PriceFormat.ReadPrice | handlers/admin.py:111 | accepts a text exactly when it has the printed shape: a leading space, a whole part without a leading zero whose spaces stand where `format_price` groups them, a point, two decimals and " ₽" |
| PriceFormat.ReadPriceSound | handlers/admin.py:107-111 | whatever is accepted is what `format_price` prints for the amount read |
| PriceFormat.ReadPriceExactly | handlers/admin.py:107-111 | a text reads as an amount exactly when `format_price` prints that amount as that text, so other spacings such as " 1 2.00 ₽" or " 1234.00 ₽" are refused |
| PriceFormat.ValueOfDigits | handlers/admin.py:111 | the printed digits denote the whole part |
| PriceFormat.UngroupGrouped | handlers/admin.py:111 | removing the grouping spaces gives the digits back |
| PriceFormat.FormatPriceRoundTrip | handlers/admin.py:107-111 | every non-negative amount is printed, and the print reads back as the same amount |
| PriceFormat.FormatPriceInjective | handlers/admin.py:107-111 | different amounts print differently |
| PriceFormat.FormatThousand | test_proj.py:50-63 | 1000 prints as " 1 000.00 ₽"; -100 is refused as negative |
| PriceFormat.FormatWithKopecks | test_proj.py:52 | 1234.56 prints as " 1 234.56 ₽" |
| PriceFormat.FormatZero | test_proj.py:54 | 0 prints as " 0.00 ₽" |
| PriceFormat.FormatMillion | test_proj.py:56 | 1000000 prints as " 1 000 000.00 ₽" |
| Menu.Multiplication | handlers/menu.py:42-50 | non-integer quantity, both negative, price negative and quantity negative are refused in that order; otherwise a non-negative product, 0 for quantity 0 |
| Menu.MultiplicationIsProduct | handlers/menu.py:50 | the result is quantity times price, and one more unit adds one price |
| Menu.Pages | handlers/menu.py:92-99 | a "previous" entry exactly when there is a previous page, a "next" entry exactly when there is a next page, nothing else, previous first |
| Menu.Catalog | handlers/menu.py:117-125 | the page's banner photo and description with one catalogue button per category; a missing banner and a banner with no photo each raise their own error |
| Menu.SeededCatalogFails | handlers/menu.py:117-118 | banners are seeded with no photo, so every seeded page's catalogue raises until a photo is set |
| Menu.Products | handlers/menu.py:146-170 | the page-th product of the category, its formatted price, and a keyboard of the buy button and the navigation row built from `pages` with the next- and previous-product payloads; the paginator's and the price formatter's errors |
| Menu.ProductKeyboardRow | handlers/menu.py:160-168 | a product screen's navigation row is built from the paginator's `pages` entries with the next- and previous-product payloads of its category |
| Menu.ProductNavigationInRange | handlers/menu.py:148-170 | every navigation button of a product screen leads to a page in 1..pages |
| Menu.GetMenuContent | handlers/menu.py:73-76 | level 0 gives the catalogue, level 1 the products, any other level nothing |
| Menu.CatalogButtonOpensCategory | handlers/keyboards.py:126-129 | a catalogue button opens level 1 on its category's first product |
| Menu.AdmissibleCosts | handlers/menu.py:252-253 | every line's cost can be computed exactly when no line has a negative quantity or price |
| Menu.SumCosts | handlers/menu.py:253 | the total succeeds exactly when every line's cost does, is non-negative, and equals the sum of quantity times price |
| Menu.SumCostsFirstFailure | handlers/menu.py:253 | a failing total raises the error of the first line whose cost fails |
| Menu.CartScreenAt | handlers/menu.py:249-271 | for a page within the cart: it fails exactly when some line has a negative quantity or price, with the page-th line's error first and otherwise the total's; otherwise the page-th line, the page and the page count, its unit price, line cost and the cart total as `format_price` prints them, the cart action buttons and the navigation row |
| Menu.CartView | handlers/menu.py:243-271 | the empty cart is its own reply exactly when there are no lines; a paginator error exactly when the page is out of range; otherwise the screen at that page; never "out of stock" |
| Menu.CartNavigationInRange | handlers/menu.py:249-269 | every navigation button of the cart row at an existing page leads to a page in 1..lines and names no product |
| Menu.Cursor | handlers/menu.py:234-241 | delete moves the page back whenever it is above 1; decrement only when the line is not kept (it was deleted, or there was none) |
| Menu.Increment | handlers/menu.py:228-233 | refused exactly when there is no product id, no such product, or no stock, and then nothing changes; otherwise one unit leaves stock and goes to the user's line for the product, which grows by one or is created with one |
| Menu.Delete | handlers/menu.py:234-237 | the user's line for the product is deleted and all its units go back to stock; without a product id or such a line nothing changes; the user's line count drops by one if the line existed |
| Menu.Decrement | handlers/menu.py:238-241 | a line above one unit loses one and is kept; a line of one is deleted; either way the unit goes back to stock; without a product id or such a line nothing changes; reports whether the line is kept |
| Menu.CartAction | handlers/menu.py:228-241 | out of stock exactly when an increment is refused, with nothing changed; each action changes the lines and the stock as `Increment`, `Delete` and `Decrement` do; other names change nothing; the cursor moves back as `Cursor` says and stays within a non-empty cart when it started within the old one; conservation |
| Menu.Carts | handlers/menu.py:228-271 | out of stock exactly when an increment is refused, with nothing changed; each action changes the lines and the stock as `Increment`, `Delete` and `Decrement` do; other names change nothing; the reply is the cart view at the adjusted cursor; an incoming page within the old cart stays within the new one, so the paginator never fails; conservation |
| PyText.CaseFold | handlers/admin.py:299 | folding keeps the length and folds each character |
| PyText.CaseFoldIdempotent | handlers/admin.py:299 | folding twice is folding once |
| PyText.CancelSpellings | handlers/admin.py:299 | "Отмена", "ОТМЕНА" and "отмена" fold to the cancel word; "Назад" folds to the back word |
| PyText.Strip | handlers/admin.py:243 | the result is no longer than the input and neither begins nor ends with whitespace |
| PyText.StripDropsOnlySpaces | handlers/admin.py:243 | the result is a contiguous part of the text and everything dropped is whitespace |
| PyText.StripIdempotent | handlers/admin.py:243 | stripping twice is stripping once |
| PyText.LastSegmentIsTail | handlers/admin.py:168 | the last segment is the tail after the last underscore: it holds no underscore, an underscore comes just before it unless it is the whole text, and it is the whole text when there is no underscore |
| PyText.LastSegmentOfPayload | handlers/admin.py:168 | "prefix_" + id gives back the id |
| PyText.IntText | handlers/admin.py:401 | `str(n)` is non-empty and has no underscore |
| PyText.Put | handlers/admin.py:148 | setting a key keeps an existing key's position, or appends a new key; keys stay unique |
| PyText.DictFrom | handlers/admin.py:148 | a dict built from pairs has unique keys and is empty exactly when there are no pairs |
| PyText.LookupPut | handlers/admin.py:148 | after setting a key, it holds the new value and every other key is unchanged |
| PyText.DictFromLookup | handlers/admin.py:148 | each key of the built dict holds the last value given for it |
| AdminWizard.StepIndex | handlers/admin.py:67-72 | the position of each step among the declared states |
| AdminWizard.PreviousStep | handlers/admin.py:344-350 | the name step has no previous step; every other step's previous is the one declared before it |
| AdminWizard.NextStep | handlers/admin.py:67-72 | the image step is last; every other step is followed by the one declared after it |
| AdminWizard.BackUndoesForward | handlers/admin.py:344-350 | going back after going forward, and forward after going back, returns to the same step |
| AdminWizard.CategoryPairs | handlers/admin.py:401 | one (name, prefix + id) pair per category, in order |
| AdminWizard.ButtonsOf | handlers/keyboards.py:104-105 | one button per dict item with its text and data |
| AdminWizard.CategoryKeyboard | handlers/admin.py:400-401 | no categories makes the keyboard builder raise "empty"; otherwise one button per distinct name |
| AdminWizard.ImageCommitAsWritten | handlers/admin.py:506-515 | as written: the commit fails on a missing image exactly when "." arrives with no edit target and no image stored before |
| AdminWizard.DotWithoutTargetCrashes | handlers/admin.py:506-515 | a new product finished with "." reaches the commit with no image |
| AdminWizard.ImageForCommit | handlers/admin.py:506-509 | corrected: a photo stores its file id; "." stores the edit target's image, or keeps the image already stored; "." with neither asks again; whatever commits has an image |
| AdminWizard.ImageForCommitAgrees | handlers/admin.py:506-515 | the corrected step asks again exactly where the written step fails on a missing image, and everywhere else commits the same data |
| AdminWizard.Fields | database/requests.py:144-151 | the six fields the commit passes to the store come from the collected data and the parsed category id |
| AdminWizard.RouteText | handlers/admin.py:114-489 | each route exactly when its handler is the first to take the text: customer texts go to the customer router; "/admin" opens the menu and "Ассортимент" the assortment in every state; a text that folds to "отмена" or "назад" is cancel or back; the banner and "Добавить товар" texts start only with no state; the name, description, price and quantity steps take any other text in their own state, the image step only "."; everything else is unhandled |
| AdminWizard.StartTextDuringNameIsAName | handlers/admin.py:280-372 | "Добавить товар" typed at the name step is taken as the name |
| AdminWizard.RouteCallback | handlers/admin.py:151-420 | each route exactly when its handler is the first to take the payload: customer payloads go to the customer router; "category_" lists products and "delete_" deletes in any state; "change_" starts an edit only with no state; any other payload at the category step is the category; everything else is unhandled |
| AdminWizard.Wizard.Assortment | handlers/admin.py:146-148 | no categories raises; otherwise one "category_<id>" button per distinct category name |
| AdminWizard.Wizard.ListProducts | handlers/admin.py:168-181 | a non-numeric id raises; a negative price in the category raises (the reply is the crash alone, without the photos sent before it); otherwise the category's products |
| AdminWizard.Wizard.DeleteProductCallback | handlers/admin.py:199-201 | the product and its cart lines are deleted in any state, and nothing else changes; a non-numeric id raises and changes nothing |
| AdminWizard.Wizard.StartProduct | handlers/admin.py:280-296 | from no state, the name step with no edit target |
| AdminWizard.Wizard.StartChange | handlers/admin.py:254-277 | from no state, the name step with the product of that id (or none) as edit target; a non-numeric id raises and changes nothing |
| AdminWizard.Wizard.AddName | handlers/admin.py:369-374 | "." with a target stores the target's name, any other text is the name; on to description |
| AdminWizard.Wizard.AddDescription | handlers/admin.py:394-402 | stores the description like the name; no categories raises with the state kept; otherwise the category buttons and on to category |
| AdminWizard.Wizard.CategoryChoice | handlers/admin.py:417-420 | the callback data is stored as the category; on to price |
| AdminWizard.Wizard.AddPrice | handlers/admin.py:442-453 | "." with a target keeps its price; unparsable text (and "." without a target) is refused with nothing changed; no sign check |
| AdminWizard.Wizard.AddQuantity | handlers/admin.py:475-486 | the same for the quantity with integer parsing |
| AdminWizard.Wizard.AddImage | handlers/admin.py:506-519 | a photo, or "." keeping the target's image or the one already stored, completes the data; it updates the edit target's product or adds a new product under the next id, and the state, data and target are cleared; a bad category id raises with the image stored; corrected where "." has no image to keep (see Left out) |
| AdminWizard.Wizard.Cancel | handlers/admin.py:314-320 | with no state nothing happens; otherwise state, data and edit target are cleared |
| AdminWizard.Wizard.FindPrevious | handlers/admin.py:344-350 | the walk over the declared states finds the current one exactly when it is a product step, and the state before it |
| AdminWizard.Wizard.Back | handlers/admin.py:339-350 | at the name step only a reply; at a later step one step back with the data kept; outside the product flow nothing |
| AdminWizard.Wizard.StartBanner | handlers/admin.py:220-223 | from no state, the banner step, listing the page names |
| AdminWizard.Wizard.AddBanner | handlers/admin.py:241-251 | a missing caption raises; a stripped caption that names no page asks again with the state kept; otherwise that page's banner takes the photo and the state is cleared |
| AdminWizard.Wizard.SaveBanner | handlers/admin.py:243-251 | for a stripped page name: one that names no page lists the page names with state and store kept; one that does replaces that page's banner image only, and clears the state |
| AdminWizard.Wizard.OnText | handlers/admin.py:114-489 | every route has the full effect of the handler it reaches (the `...Effect` predicates of each handler); customer texts, "/admin", the assortment and a text no admin handler matches change nothing; the wizard invariant is kept |
| AdminWizard.Wizard.OnPhoto | handlers/admin.py:226-489 | at the banner step the effect of `add_banner`, at the image step that of `add_image` on the photo; in any other state nothing changes; the invariant is kept |
| AdminWizard.Wizard.OnCallback | handlers/admin.py:151-420 | every route has the full effect of the handler it reaches: product list, delete, start edit, category choice; customer payloads and a payload no handler matches change nothing; the invariant is kept |

## Left out

- The Telegram transport is not modelled: sending, editing and deleting messages, photos, `callback.answer` and removing keyboards. Each handler's visible effect is a reply value.
- SQLAlchemy sessions, commits, `joinedload` and the row lock of `with_for_update` are not modelled. Each store operation is one atomic method, and concurrent buyers are not modelled.
- Floating point is not modelled. Prices are whole kopecks, so `format_price` and `multiplication` are exact and do not round.
- Python's `float()` and `int()` on message text and callback ids are parameters of the `Wizard`, as the map from each accepted text to its number. They are not reimplemented.
- Keyboard layout (`adjust`, `as_markup`, `sizes`) and the packing of `CallbackData` payloads into strings are not modelled. The customer router is taken to match callback data by its `menu:` and `cart:` prefixes.
- The customer router (`handlers/users.py`) is registered before the admin router. The model only records which texts and payloads it takes first; what it does with them is the `Menu` module's `carts` and `get_menu_content`.
- The `IsAdmin` filter (`filters/admin_fil.py`) is not modelled. The `Wizard` stands for the one administrator's conversation. In the source the filter covers messages only, not callbacks.
- `Command("admin")` is modelled as the exact text "/admin"; its other forms (a bot-name suffix, arguments) are not modelled.
- AdminWizard.RouteText: the customer router's `CommandStart()` (`handlers/users.py:12`) is modelled as the exact text "/start". Its other forms ("/start <payload>", "/start@<bot>") reach the admin handlers in the model, so at the name step "/start ref" becomes a product name, while in the code the customer router takes it.
- AdminWizard.Wizard: models one administrator's conversation. In the code `AddProduct.product_for_change` is a class attribute shared by every chat (`handlers/admin.py:74`, `:273`), and callbacks are not filtered by `IsAdmin`. A `change_<id>` callback from another conversation therefore sets the edit target, and a later "Добавить товар" flow, which does not reset it (`handlers/admin.py:280-296`), ends in updating that product. `Consistent()` ("no state, no edit target") holds only for a single conversation and does not capture this.
- Store.Store.AddProduct: gives out ids from a counter that never goes back. The product's integer primary key (`database/models.py:82`) gets no AUTOINCREMENT keyword in SQLite from SQLAlchemy's `autoincrement=True`, so SQLite gives max(id)+1, so after the highest product is deleted its id is reused. An old `delete_`, `change_` or cart button then reaches the new product in the code but no product in the model.
- Foreign keys from cart lines to users and from products to categories are not modelled. Only the product cascade is.
- The product cascade (`database/models.py:133`) takes effect in SQLite only with `PRAGMA foreign_keys=ON`, which the code never sets. The model assumes the database enforces foreign keys.
- AdminWizard.Wizard.AddImage: follows the corrected image step, not the code. Where "." arrives with no edit target and no image stored, the code raises `KeyError` at the commit and the state stays at the image step; the model asks for a photo again instead. Everywhere else the two agree (`ImageForCommitAgrees`), including "." with no target after an earlier failed commit stored an image, which commits that image.
- `PyText.CaseFold`: does not model full Unicode case folding. It folds Latin and Cyrillic capitals and the Cyrillic letter variants. Python also folds other characters, some into Latin letters (À, the Kelvin sign, ſ, ß), and the model leaves those alone. No character it leaves alone folds into the Cyrillic letters U+0430 to U+045F, so the comparisons with "отмена" and "назад" (handlers/admin.py:299 and :323) come out as in Python.
- AdminWizard.Wizard.ListProducts: the code sends one photo per product in order and raises at the first product with a negative price (`handlers/admin.py:169-179`), so the photos before it have already gone out. The model's reply is `Crashed(NegativePrice)` alone and does not record those earlier photos.
- Captions, product images and banner images are plain text values (file ids).
- Product lists are ordered by ascending id, and cart lines by insertion order. This stands in for the database's unspecified row order.
- `main.py`, `database/engine.py`, `handlers/mwre.py` and `handlers/texts.py` are not part of this model. They load configuration, create the engine and pass sessions to the handlers.
- The printed captions (product and cart texts) are not modelled beyond the formatted prices and the page numbers.

## Findings

| source | as written | input that shows it | evidently intended | confidence | as-written member | corrected member |
|---|---|---|---|---|---|---|
| handlers/admin.py:506-515 | at the image step, "." stores the image only when there is an edit target; the commit then reads `data["image"]` | add a new product and answer the image step with "." | "." keeps an existing image (the edit target's, or one already stored); with none the bot asks for a photo again | high, not executed | AdminWizard.ImageCommitAsWritten | AdminWizard.ImageForCommit |
