/**
 * The customer-facing screens of handlers/menu.py: the product rule
 * `multiplication`, the pagination entries `pages`, the catalogue and
 * product screens behind `get_menu_content`, and the cart screen `carts`,
 * which first applies a cart action to the store and then moves the page
 * cursor. Captions are modelled by the values shown in them.
 */
module Menu {
  import opened Wrappers
  import Pagination
  import Store
  import Keyboards
  import PriceFormat
  import PyText

  // ---------------------------------------------------------------------
  // multiplication

  /** The quantity argument: a Python `int`, or a value of another type. */
  datatype QuantityArg = Int(n: int) | NotInt

  datatype MulError =
    | QuantityNotInt    // TypeError
    | BothNegative      // ValueError
    | PriceNegative     // ValueError
    | QuantityNegative  // ValueError

  function MulMessage(e: MulError): string
  {
    match e
    case QuantityNotInt => "Quantity must be an integer"
    case BothNegative => "Both price and quantity cannot be negative"
    case PriceNegative => "Price cannot be negative"
    case QuantityNegative => "Quantity cannot be negative"
  }

  /** `multiplication(quantity, price)`: four checks in a fixed order, then the product. */
  function Multiplication(quantity: QuantityArg, price: int): (r: Result<int, MulError>)
    ensures quantity.NotInt? ==> r == Failure(QuantityNotInt)
    ensures quantity.Int? && quantity.n < 0 && price < 0 ==> r == Failure(BothNegative)
    ensures quantity.Int? && quantity.n >= 0 && price < 0 ==> r == Failure(PriceNegative)
    ensures quantity.Int? && quantity.n < 0 && price >= 0 ==> r == Failure(QuantityNegative)
    ensures r.Success? <==> quantity.Int? && quantity.n >= 0 && price >= 0
    ensures r.Success? ==> r.value >= 0 && (quantity.n == 0 ==> r.value == 0)
  {
    if quantity.NotInt? then Failure(QuantityNotInt)
    else if price < 0 && quantity.n < 0 then Failure(BothNegative)
    else if price < 0 then Failure(PriceNegative)
    else if quantity.n < 0 then Failure(QuantityNegative)
    else Success(quantity.n * price)
  }

  /** For admissible arguments the result is the product, and it grows with the quantity. */
  lemma MultiplicationIsProduct(q: nat, price: nat)
    ensures Multiplication(Int(q), price) == Success(q * price)
    ensures Multiplication(Int(q + 1), price).value == Multiplication(Int(q), price).value + price
  {
  }

  // ---------------------------------------------------------------------
  // pages

  const PreviousEntry: (string, string) := ("◀ Пред.", "previous")
  const NextEntry: (string, string) := ("След. ▶", "next")

  /** `pages(paginator)`: a "previous" entry, then a "next" entry, each only when that page exists. */
  function Pages<T>(p: Pagination.Paginator<T>): (r: seq<(string, string)>)
    requires p.Valid()
    ensures PreviousEntry in r <==> p.HasPrevious().Some?
    ensures NextEntry in r <==> p.HasNext().Some?
    ensures forall e :: e in r ==> e == PreviousEntry || e == NextEntry
    ensures |r| <= 2 && (|r| == 2 ==> r == [PreviousEntry, NextEntry])
  {
    (if p.HasPrevious().Some? then [PreviousEntry] else [])
    + (if p.HasNext().Some? then [NextEntry] else [])
  }

  // ---------------------------------------------------------------------
  // Screens

  datatype MenuError =
    | NoBanner                                // AttributeError on a missing banner
    | NoImage                                 // InputMediaPhoto refuses a banner with no photo
    | PageFail(page: Pagination.PageError)
    | PriceFail(price: PriceFormat.PriceError)
    | MulFail(mul: MulError)

  datatype Screen =
    | CatalogScreen(media: string, caption: Option<string>,
                    buttons: seq<Keyboards.InlineButton<Keyboards.MenuCallBack>>)
    | ProductScreen(product: Store.Product, page: int, pages: int, price: string,
                    productKeyboard: Keyboards.ProductKeyboard)
    | CartScreen(entry: Store.CartEntry, page: int, pages: int, unitPrice: string, linePrice: string,
                 total: string, cartKeyboard: Keyboards.CartKeyboard)

  /**
   * `catalog`: the page's banner photo and one button per category. A
   * missing banner raises, and so does a banner with no photo, since the
   * photo is the media of `InputMediaPhoto`.
   */
  function Catalog(s: Store.Store, level: int, menuName: string): (r: Result<Screen, MenuError>)
    reads s
    ensures r.Failure? <==> s.GetBanner(menuName).None? || s.GetBanner(menuName).value.image.None?
    ensures s.GetBanner(menuName).None? ==> r == Failure(NoBanner)
    ensures s.GetBanner(menuName).Some? && s.GetBanner(menuName).value.image.None? ==> r == Failure(NoImage)
    ensures r.Success? ==>
      && r.value.CatalogScreen?
      && r.value.media == s.GetBanner(menuName).value.image.value
      && r.value.caption == s.GetBanner(menuName).value.description
    ensures r.Success? ==> r.value.buttons == Keyboards.CatalogKeyboard(level, s.categories)
  {
    match s.GetBanner(menuName)
    case None => Failure(NoBanner)
    case Some(banner) =>
      if banner.image.None? then Failure(NoImage)
      else Success(CatalogScreen(banner.image.value, banner.description, Keyboards.CatalogKeyboard(level, s.categories)))
  }

  /** Banners are seeded with no photo, so every seeded page's catalogue fails until a photo is set. */
  lemma SeededCatalogFails(s: Store.Store, level: int, data: seq<(string, string)>, i: nat)
    requires PyText.UniqueKeys(data) && s.banners == Store.SeedBanners([], data) && i < |data|
    ensures Catalog(s, level, data[i].0) == Failure(NoImage)
  {
    assert s.banners[i].name == data[i].0;
  }

  /**
   * `products`: the products of the category, one per page. The paginator
   * fails first (an empty category, a page out of range), then the price
   * formatter (a negative price).
   */
  function Products(s: Store.Store, level: int, category: Option<int>, page: int): (r: Result<Screen, MenuError>)
    reads s
    requires s.Valid()
    ensures var items := if category.Some? then s.ProductsIn(category.value) else [];
      && (r.Failure? && r.error.PageFail? <==> !(1 <= page <= |items|))
      && (1 <= page <= |items| ==>
            var product := items[page - 1];
            && (r.Failure? <==> product.price < 0)
            && (r.Failure? ==> r == Failure(PriceFail(PriceFormat.Negative)))
            && (r.Success? ==>
                  && r.value.ProductScreen? && r.value.product == product
                  && r.value.page == page && r.value.pages == |items|
                  && Success(r.value.price) == PriceFormat.FormatPrice(PriceFormat.Number(product.price))))
    ensures r.Success? ==> category.Some? && r.value.product.categoryId == category.value
    ensures r.Success? ==> r.value.productKeyboard.buy == Keyboards.BuyButton(level, r.value.product.id)
  {
    var items := if category.Some? then s.ProductsIn(category.value) else [];
    match Pagination.NewPaginator(items, page)
    case Failure(e) => Failure(PageFail(e))
    case Success(p) =>
      var product := p.GetItem();
      assert product == items[page - 1] && p.pages == |items|;
      match PriceFormat.FormatPrice(PriceFormat.Number(product.price))
      case Failure(e) => Failure(PriceFail(e))
      case Success(price) =>
        var cat := if category.Some? then category.value else 0;
        var keyboard := Keyboards.ProductKeyboard(
          Keyboards.BuyButton(level, product.id),
          Keyboards.NavRow(Pages(p), Keyboards.NextProduct(level, cat, page), Keyboards.PreviousProduct(level, cat, page)));
        Success(ProductScreen(product, p.page, p.pages, price, keyboard))
  }

  /**
   * A product screen's navigation row is built from the paginator's `pages`
   * entries, with the next- and previous-product payloads of its category.
   */
  lemma ProductKeyboardRow(s: Store.Store, level: int, category: Option<int>, page: int)
    requires s.Valid()
    requires Products(s, level, category, page).Success?
    ensures category.Some? && Pagination.NewPaginator(s.ProductsIn(category.value), page).Success?
    ensures Products(s, level, category, page).value.productKeyboard.row == Keyboards.NavRow(
      Pages(Pagination.NewPaginator(s.ProductsIn(category.value), page).value),
      Keyboards.NextProduct(level, category.value, page),
      Keyboards.PreviousProduct(level, category.value, page))
  {
  }

  /** Every page a product screen's navigation offers exists. */
  lemma ProductNavigationInRange(s: Store.Store, level: int, category: Option<int>, page: int)
    requires s.Valid()
    requires Products(s, level, category, page).Success?
    ensures var sc := Products(s, level, category, page).value;
      forall b :: b in sc.productKeyboard.row ==> 1 <= b.data.page <= sc.pages && b.data.category == category
  {
    ProductKeyboardRow(s, level, category, page);
    var items := s.ProductsIn(category.value);
    var p := Pagination.NewPaginator(items, page).value;
    var next := Keyboards.NextProduct(level, category.value, page);
    var previous := Keyboards.PreviousProduct(level, category.value, page);
    var row := Keyboards.NavRow(Pages(p), next, previous);
    forall b | b in row
      ensures 1 <= b.data.page <= p.pages
    {
      Keyboards.NavRowHas(Pages(p), next, previous, b.text);
      if b.data == next {
        assert (b.text, "next") in Pages(p);
      } else {
        assert (b.text, "previous") in Pages(p);
      }
    }
  }

  /**
   * `get_menu_content`: level 0 is the catalogue, level 1 the product
   * screens, and any other level gives nothing (`None`).
   */
  function GetMenuContent(s: Store.Store, level: int, menuName: string, category: Option<int>, page: int)
    : (r: Option<Result<Screen, MenuError>>)
    reads s
    requires s.Valid()
    ensures level == 0 ==> r == Some(Catalog(s, level, menuName))
    ensures level == 1 ==> r == Some(Products(s, level, category, page))
    ensures r.None? <==> level != 0 && level != 1
  {
    if level == 0 then Some(Catalog(s, level, menuName))
    else if level == 1 then Some(Products(s, level, category, page))
    else None
  }

  /**
   * Pressing a catalogue button opens the first product of that category,
   * when the category has products with non-negative prices.
   */
  lemma CatalogButtonOpensCategory(s: Store.Store, menuName: string, i: nat)
    requires s.Valid()
    requires Catalog(s, 0, menuName).Success? && i < |s.categories|
    requires s.ProductsIn(s.categories[i].id) != [] && s.ProductsIn(s.categories[i].id)[0].price >= 0
    ensures var d := Catalog(s, 0, menuName).value.buttons[i].data;
      var r := GetMenuContent(s, d.level, d.menuName, d.category, d.page);
      r.Some? && r.value.Success? && r.value.value.product == s.ProductsIn(s.categories[i].id)[0]
  {
  }

  // ---------------------------------------------------------------------
  // Cart screen

  /** What one cart line costs: `multiplication(cart.quantity, cart.product.price)`. */
  function LineCost(e: Store.CartEntry): Result<int, MulError>
  {
    Multiplication(Int(e.line.quantity), e.product.price)
  }

  /** The total as arithmetic: quantity times price, summed over the lines. */
  function TotalCost(baskets: seq<Store.CartEntry>): int
  {
    if baskets == [] then 0 else baskets[0].line.quantity * baskets[0].product.price + TotalCost(baskets[1..])
  }

  predicate Admissible(baskets: seq<Store.CartEntry>)
  {
    forall e :: e in baskets ==> e.line.quantity >= 0 && e.product.price >= 0
  }

  /** A cart is admissible exactly when the cost of each of its lines can be computed. */
  lemma AdmissibleCosts(baskets: seq<Store.CartEntry>)
    ensures Admissible(baskets) <==> forall i :: 0 <= i < |baskets| ==> LineCost(baskets[i]).Success?
  {
    if !Admissible(baskets) {
      var e :| e in baskets && !(e.line.quantity >= 0 && e.product.price >= 0);
      var i :| 0 <= i < |baskets| && baskets[i] == e;
      assert LineCost(baskets[i]).Failure?;
    }
  }

  /** The cart total as the generator passed to `sum` computes it: the first failing line raises. */
  function SumCosts(baskets: seq<Store.CartEntry>): (r: Result<int, MulError>)
    ensures r.Success? <==> forall i :: 0 <= i < |baskets| ==> LineCost(baskets[i]).Success?
    ensures r.Success? ==> r.value >= 0
    ensures Admissible(baskets) ==> r == Success(TotalCost(baskets))
  {
    if baskets == [] then Success(0)
    else match LineCost(baskets[0])
      case Failure(e) => Failure(e)
      case Success(c) =>
        match SumCosts(baskets[1..])
        case Failure(e) => Failure(e)
        case Success(rest) => Success(c + rest)
  }

  /** A failing total carries the error of the first line whose cost fails. */
  lemma {:induction false} SumCostsFirstFailure(baskets: seq<Store.CartEntry>)
    requires SumCosts(baskets).Failure?
    ensures exists i :: && 0 <= i < |baskets| && LineCost(baskets[i]) == Failure(SumCosts(baskets).error)
                        && (forall j :: 0 <= j < i ==> LineCost(baskets[j]).Success?)
  {
    if LineCost(baskets[0]).Failure? {
      assert LineCost(baskets[0]) == Failure(SumCosts(baskets).error);
    } else {
      var tail := baskets[1..];
      SumCostsFirstFailure(tail);
      var i :| 0 <= i < |tail| && LineCost(tail[i]) == Failure(SumCosts(tail).error)
        && forall j :: 0 <= j < i ==> LineCost(tail[j]).Success?;
      assert baskets[i + 1] == tail[i];
      forall j | 0 <= j < i + 1
        ensures LineCost(baskets[j]).Success?
      {
        if j > 0 {
          assert baskets[j] == tail[j - 1];
        }
      }
    }
  }

  /** The cart reply: `(True, False)`, `(False, False)`, a screen, or a raised error. */
  datatype CartsReply = OutOfStock | EmptyCart | Shown(screen: Screen) | Failed(error: MenuError)

  /** The navigation row of the cart screen at a page that exists. */
  function CartRow(baskets: seq<Store.CartEntry>, page: int): seq<Keyboards.InlineButton<Keyboards.CartCallback>>
    requires 1 <= page <= |baskets|
  {
    Keyboards.NavRow(Pages(Pagination.NewPaginator(baskets, page).value),
                     Keyboards.CartCallback("next", page + 1, None), Keyboards.CartCallback("previous", page - 1, None))
  }

  /**
   * The cart screen at a page that exists: the page-th line with its unit
   * price, its cost and the cart total, or the error `multiplication` raises.
   */
  function CartScreenAt(baskets: seq<Store.CartEntry>, page: int): (r: CartsReply)
    requires 1 <= page <= |baskets|
    ensures r.Shown? || (r.Failed? && r.error.MulFail?)
    ensures r.Failed? <==> !Admissible(baskets)
    ensures LineCost(baskets[page - 1]).Failure? ==> r == Failed(MulFail(LineCost(baskets[page - 1]).error))
    ensures LineCost(baskets[page - 1]).Success? && SumCosts(baskets).Failure? ==> r == Failed(MulFail(SumCosts(baskets).error))
    ensures Admissible(baskets) ==>
      && r.Shown? && r.screen.CartScreen?
      && r.screen.entry == baskets[page - 1] && r.screen.page == page && r.screen.pages == |baskets|
      && Success(r.screen.unitPrice) == PriceFormat.FormatPrice(PriceFormat.Number(baskets[page - 1].product.price))
      && Success(r.screen.total) == PriceFormat.FormatPrice(PriceFormat.Number(TotalCost(baskets)))
      && Success(r.screen.linePrice) == PriceFormat.FormatPrice(PriceFormat.Number(
           baskets[page - 1].line.quantity * baskets[page - 1].product.price))
    ensures r.Shown? ==>
      && r.screen.CartScreen?
      && r.screen.cartKeyboard.actions == Keyboards.CartActions(page, Some(r.screen.entry.line.productId))
      && r.screen.cartKeyboard.row == CartRow(baskets, page)
  {
    AdmissibleCosts(baskets);
    var p := Pagination.NewPaginator(baskets, page).value;
    var cart := p.GetItem();
    assert cart == baskets[page - 1];
    match LineCost(cart)
    case Failure(e) => Failed(MulFail(e))
    case Success(cost) =>
      assert cost >= 0 && (Admissible(baskets) ==> cost == cart.line.quantity * cart.product.price);
      match SumCosts(baskets)
      case Failure(e) => Failed(MulFail(e))
      case Success(total) =>
        assert total >= 0 && (Admissible(baskets) ==> total == TotalCost(baskets));
        var keyboard := Keyboards.CartKeyboard(Keyboards.CartActions(page, Some(cart.line.productId)), CartRow(baskets, page));
        Shown(CartScreen(cart, p.page, p.pages,
          PriceFormat.FormatPrice(PriceFormat.Number(cart.product.price)).value,
          PriceFormat.FormatPrice(PriceFormat.Number(cost)).value,
          PriceFormat.FormatPrice(PriceFormat.Number(total)).value, keyboard))
  }

  /**
   * The second half of `carts`: the re-listed cart, paginated one line per
   * page; an empty cart is its own reply and a missing page a paginator error.
   */
  function CartView(baskets: seq<Store.CartEntry>, page: int): (r: CartsReply)
    ensures r.OutOfStock? == false
    ensures r.EmptyCart? <==> baskets == []
    ensures baskets != [] ==> (r.Failed? && r.error.PageFail? <==> !(1 <= page <= |baskets|))
    ensures baskets != [] && 1 <= page <= |baskets| ==> r == CartScreenAt(baskets, page)
  {
    if baskets == [] then EmptyCart
    else match Pagination.NewPaginator(baskets, page)
      case Failure(e) => Failed(PageFail(e))
      case Success(_) => CartScreenAt(baskets, page)
  }

  /** Every page a cart screen's navigation offers exists, and no navigation button names a product. */
  lemma CartNavigationInRange(baskets: seq<Store.CartEntry>, page: int)
    requires 1 <= page <= |baskets|
    ensures forall b :: b in CartRow(baskets, page) ==> 1 <= b.data.page <= |baskets| && b.data.productId.None?
  {
    var p := Pagination.NewPaginator(baskets, page).value;
    var next := Keyboards.CartCallback("next", page + 1, None);
    var previous := Keyboards.CartCallback("previous", page - 1, None);
    var row := CartRow(baskets, page);
    forall b | b in row
      ensures 1 <= b.data.page <= |baskets|
    {
      Keyboards.NavRowHas(Pages(p), next, previous, b.text);
      if b.data == next {
        assert (b.text, "next") in Pages(p);
      } else {
        assert (b.text, "previous") in Pages(p);
      }
    }
  }

  /** Whether `orm_reduce_product_in_cart` would keep the line: it exists and holds more than one unit. */
  function Kept(lines: seq<Store.CartLine>, uid: int, pid: Option<int>): bool
  {
    pid.Some? && Store.FindLine(lines, uid, pid.value).Some?
    && lines[Store.FindLine(lines, uid, pid.value).value].quantity > 1
  }

  /** The page cursor after the action: back one on delete, and on a decrement that removed the line. */
  function Cursor(menuName: Option<string>, page: int, kept: bool): (c: int)
    ensures page > 1 && (menuName == Some("delete") || (menuName == Some("decrement") && !kept)) ==> c == page - 1
    ensures !(page > 1 && (menuName == Some("delete") || (menuName == Some("decrement") && !kept))) ==> c == page
  {
    if menuName == Some("delete") && page > 1 then page - 1
    else if menuName == Some("decrement") && page > 1 && !kept then page - 1
    else page
  }

  /** Whether the user has a line for `pid`. */
  function HasLine(lines: seq<Store.CartLine>, uid: int, pid: Option<int>): bool
  {
    pid.Some? && Store.FindLine(lines, uid, pid.value).Some?
  }

  /**
   * What the increment branch does: it is refused, with nothing changed,
   * exactly when there is no product id, no such product or no stock;
   * otherwise one unit leaves stock and goes to the user's line.
   */
  twostate predicate Incremented(s: Store.Store, uid: int, pid: Option<int>, refused: bool)
    reads s
  {
    && (refused <==> !(pid.Some? && old(s.GetProduct(pid.value)).Some? && old(s.GetProduct(pid.value)).value.quantity > 0))
    && (refused ==> s.products == old(s.products) && s.lines == old(s.lines))
    && (!refused ==>
          && s.lines == Store.AddUnit(old(s.lines), uid, pid.value)
          && s.products == Store.Restock(old(s.products), pid.value, -1))
  }

  /**
   * What the delete branch does: the user's line for the product goes and
   * all its units go back to stock; without a product id or such a line
   * nothing changes.
   */
  twostate predicate Deleted(s: Store.Store, uid: int, pid: Option<int>)
    requires old(s.Valid())
    reads s
  {
    && (pid.None? ==> s.lines == old(s.lines))
    && (pid.Some? ==> s.lines == Store.DropLine(old(s.lines), uid, pid.value))
    && (old(HasLine(s.lines, uid, pid)) ==>
          s.products == Store.Restock(old(s.products), pid.value, old(Store.LineUnits(s.lines, uid, pid.value))))
    && (!old(HasLine(s.lines, uid, pid)) ==> s.products == old(s.products))
  }

  /**
   * What the decrement branch does: the user's line for the product loses a
   * unit, or goes when it held one, and the unit goes back to stock;
   * without a product id or such a line nothing changes.
   */
  twostate predicate Decremented(s: Store.Store, uid: int, pid: Option<int>)
    requires old(s.Valid())
    reads s
  {
    && (pid.None? ==> s.lines == old(s.lines))
    && (pid.Some? ==> s.lines == Store.TakeUnit(old(s.lines), uid, pid.value))
    && (old(HasLine(s.lines, uid, pid)) ==> s.products == Store.Restock(old(s.products), pid.value, 1))
    && (!old(HasLine(s.lines, uid, pid)) ==> s.products == old(s.products))
  }

  /** The increment branch of `carts`: add one unit when the product exists and is in stock. */
  method Increment(s: Store.Store, uid: int, pid: Option<int>) returns (refused: bool)
    requires s.Valid()
    modifies s
    ensures s.Valid()
    ensures Incremented(s, uid, pid, refused)
    ensures !refused ==> Store.InCart(s.lines, pid.value) == Store.InCart(old(s.lines), pid.value) + 1
    ensures Store.LinesOf(s.lines, uid) >= Store.LinesOf(old(s.lines), uid)
    ensures s.products.Keys == old(s.products.Keys)
    ensures forall p :: p in s.products ==> s.Total(p) == old(s.Total(p))
    ensures s.categories == old(s.categories) && s.banners == old(s.banners) && s.users == old(s.users)
    ensures s.nextProductId == old(s.nextProductId)
  {
    var product := if pid.Some? then s.GetProduct(pid.value) else None;
    if product.Some? && product.value.quantity > 0 {
      ghost var found := Store.FindLine(s.lines, uid, pid.value);
      ghost var before := s.lines;
      var ok := s.AddToCart(uid, pid.value);
      if found.Some? {
        Store.LinesOfReplace(before, found.value, s.lines[found.value], uid);
      } else {
        Store.LinesOfAppend(before, Store.CartLine(uid, pid.value, 1), uid);
      }
      assert s.Total(pid.value) == old(s.Total(pid.value));
      refused := false;
    } else {
      refused := true;
    }
  }

  /** The delete branch of `carts`: the user's line for `pid` goes, if there is one. */
  method Delete(s: Store.Store, uid: int, pid: Option<int>)
    requires s.Valid()
    modifies s
    ensures s.Valid()
    ensures Deleted(s, uid, pid)
    ensures pid.Some? ==> Store.FindLine(s.lines, uid, pid.value).None?
    ensures Store.LinesOf(s.lines, uid) == Store.LinesOf(old(s.lines), uid) - (if old(HasLine(s.lines, uid, pid)) then 1 else 0)
    ensures s.products.Keys == old(s.products.Keys)
    ensures forall p :: p in s.products ==> s.Total(p) == old(s.Total(p))
    ensures s.categories == old(s.categories) && s.banners == old(s.banners) && s.users == old(s.users)
    ensures s.nextProductId == old(s.nextProductId)
  {
    if pid.Some? {
      ghost var found := Store.FindLine(s.lines, uid, pid.value);
      ghost var before := s.lines;
      s.DeleteFromCart(uid, pid.value);
      if found.Some? {
        Store.LinesOfRemove(before, found.value, uid);
        Store.RemoveFoundLine(before, uid, pid.value);
      }
    }
  }

  /** The decrement branch of `carts`: one unit back to stock; reports whether the line is kept. */
  method Decrement(s: Store.Store, uid: int, pid: Option<int>) returns (isCart: bool)
    requires s.Valid()
    modifies s
    ensures s.Valid()
    ensures isCart == old(Kept(s.lines, uid, pid))
    ensures Decremented(s, uid, pid)
    ensures Store.LinesOf(s.lines, uid) ==
      Store.LinesOf(old(s.lines), uid) - (if old(HasLine(s.lines, uid, pid)) && !isCart then 1 else 0)
    ensures s.products.Keys == old(s.products.Keys)
    ensures forall p :: p in s.products ==> s.Total(p) == old(s.Total(p))
    ensures s.categories == old(s.categories) && s.banners == old(s.banners) && s.users == old(s.users)
    ensures s.nextProductId == old(s.nextProductId)
  {
    isCart := false;
    if pid.Some? {
      ghost var found := Store.FindLine(s.lines, uid, pid.value);
      ghost var before := s.lines;
      isCart := s.ReduceInCart(uid, pid.value);
      if found.Some? {
        if isCart {
          Store.LinesOfReplace(before, found.value, s.lines[found.value], uid);
        } else {
          Store.LinesOfRemove(before, found.value, uid);
        }
      }
    }
  }

  /**
   * The action half of `carts`: apply the action named by `menuName`
   * (increment, delete or decrement; anything else changes nothing) and move
   * the page cursor; `refused` when an increment finds no stock.
   */
  method CartAction(s: Store.Store, uid: int, menuName: Option<string>, page: int, pid: Option<int>)
    returns (refused: bool, cursor: int)
    requires s.Valid()
    modifies s
    ensures s.Valid()
    ensures refused <==>
      && menuName == Some("increment")
      && !(pid.Some? && old(s.GetProduct(pid.value)).Some? && old(s.GetProduct(pid.value)).value.quantity > 0)
    ensures refused ==> s.products == old(s.products) && s.lines == old(s.lines)
    ensures menuName !in {Some("increment"), Some("delete"), Some("decrement")} ==>
      s.products == old(s.products) && s.lines == old(s.lines)
    ensures menuName == Some("increment") && !refused ==>
      Store.InCart(s.lines, pid.value) == Store.InCart(old(s.lines), pid.value) + 1
    ensures menuName == Some("increment") ==> Incremented(s, uid, pid, refused)
    ensures menuName == Some("delete") ==> Deleted(s, uid, pid)
    ensures menuName == Some("delete") && pid.Some? ==> Store.FindLine(s.lines, uid, pid.value).None?
    ensures menuName == Some("decrement") ==> Decremented(s, uid, pid)
    ensures cursor == Cursor(menuName, page, old(Kept(s.lines, uid, pid)))
    ensures s.products.Keys == old(s.products.Keys)
    ensures forall p :: p in s.products ==> s.Total(p) == old(s.Total(p))
    ensures 1 <= page <= |old(s.UserCart(uid))| && s.UserCart(uid) != [] ==> 1 <= cursor <= |s.UserCart(uid)|
    ensures s.categories == old(s.categories) && s.banners == old(s.banners) && s.users == old(s.users)
    ensures s.nextProductId == old(s.nextProductId)
  {
    cursor := page;
    refused := false;
    if menuName == Some("increment") {
      refused := Increment(s, uid, pid);
    } else if menuName == Some("delete") {
      Delete(s, uid, pid);
      if cursor > 1 {
        cursor := cursor - 1;
      }
    } else if menuName == Some("decrement") {
      var isCart := Decrement(s, uid, pid);
      if cursor > 1 && !isCart {
        cursor := cursor - 1;
      }
    }
  }

  /**
   * `carts`: apply the action named by `menuName`, move the page cursor,
   * then show the re-listed cart at the cursor.
   */
  method Carts(s: Store.Store, uid: int, menuName: Option<string>, page: int, pid: Option<int>)
    returns (reply: CartsReply)
    requires s.Valid()
    modifies s
    ensures s.Valid()
    ensures reply.OutOfStock? <==>
      && menuName == Some("increment")
      && !(pid.Some? && old(s.GetProduct(pid.value)).Some? && old(s.GetProduct(pid.value)).value.quantity > 0)
    ensures reply.OutOfStock? ==> s.products == old(s.products) && s.lines == old(s.lines)
    ensures menuName !in {Some("increment"), Some("delete"), Some("decrement")} ==>
      s.products == old(s.products) && s.lines == old(s.lines)
    ensures menuName == Some("increment") && !reply.OutOfStock? ==>
      Store.InCart(s.lines, pid.value) == Store.InCart(old(s.lines), pid.value) + 1
    ensures menuName == Some("increment") ==> Incremented(s, uid, pid, reply.OutOfStock?)
    ensures menuName == Some("delete") ==> Deleted(s, uid, pid)
    ensures menuName == Some("delete") && pid.Some? ==> Store.FindLine(s.lines, uid, pid.value).None?
    ensures menuName == Some("decrement") ==> Decremented(s, uid, pid)
    ensures !reply.OutOfStock? ==>
      reply == CartView(s.UserCart(uid), Cursor(menuName, page, old(Kept(s.lines, uid, pid))))
    ensures s.products.Keys == old(s.products.Keys)
    ensures forall p :: p in s.products ==> s.Total(p) == old(s.Total(p))
    ensures 1 <= page <= |old(s.UserCart(uid))| && s.UserCart(uid) != [] ==>
      1 <= Cursor(menuName, page, old(Kept(s.lines, uid, pid))) <= |s.UserCart(uid)|
    ensures 1 <= page <= |old(s.UserCart(uid))| ==> !(reply.Failed? && reply.error.PageFail?)
    ensures s.categories == old(s.categories) && s.banners == old(s.banners) && s.users == old(s.users)
    ensures s.nextProductId == old(s.nextProductId)
  {
    var refused, cursor := CartAction(s, uid, menuName, page, pid);
    if refused {
      return OutOfStock;
    }
    reply := CartView(s.UserCart(uid), cursor);
  }
}
