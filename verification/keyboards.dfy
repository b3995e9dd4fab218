/**
 * The keyboard builders of handlers/keyboards.py: the argument checks of
 * `get_keyboard` and `get_callback_btns`, and the callback payloads the
 * catalogue, product and cart keyboards carry. Layout (`adjust`,
 * `as_markup`) and payload packing belong to the chat library.
 */
module Keyboards {
  import opened Wrappers
  import Store

  /** A Python argument handed to a builder: a `str`, or any other value. */
  datatype PyValue = Str(s: string) | NotStr

  /** The argument given as `btns=` to `get_callback_btns`: a dict (its items, in order) or not a dict. */
  datatype ButtonsArg = Dict(items: seq<(PyValue, PyValue)>) | NotDict

  datatype KeyboardError =
    | NoButtons          // ValueError
    | ButtonNotString    // TypeError
    | NotADict           // TypeError
    | EmptyDict          // ValueError
    | BothNotStrings     // TypeError
    | CallbackNotString  // TypeError

  function Message(e: KeyboardError): string
  {
    match e
    case NoButtons => "Buttons must exist"
    case ButtonNotString => "Each button must be a string"
    case NotADict => "Buttons must be a dictionary"
    case EmptyDict => "Buttons dictionary cannot be empty"
    case BothNotStrings => "Both button and callback data must be a string"
    case CallbackNotString => "Each callback data must be a string"
  }

  datatype ReplyButton = ReplyButton(text: string)

  datatype InlineButton<P> = InlineButton(text: string, data: P)

  /** `MenuCallBack`; `page` defaults to 1. */
  datatype MenuCallBack = MenuCallBack(
    level: int, menuName: string, category: Option<int>, page: int, productId: Option<int>)

  /** `CartCallback`; `page` defaults to 1. */
  datatype CartCallback = CartCallback(menuName: string, page: int, productId: Option<int>)

  // ---------------------------------------------------------------------
  // get_keyboard

  /** `get_keyboard(*btns)`: at least one button, every one a string, one reply button each. */
  method GetKeyboard(btns: seq<PyValue>) returns (r: Result<seq<ReplyButton>, KeyboardError>)
    ensures |btns| == 0 ==> r == Failure(NoButtons)
    ensures |btns| > 0 && (exists i :: 0 <= i < |btns| && btns[i].NotStr?) ==> r == Failure(ButtonNotString)
    ensures r.Success? <==> |btns| > 0 && forall i :: 0 <= i < |btns| ==> btns[i].Str?
    ensures r.Success? ==> |r.value| == |btns| && forall i :: 0 <= i < |btns| ==> btns[i] == Str(r.value[i].text)
  {
    if |btns| == 0 {
      return Failure(NoButtons);
    }
    var i := 0;
    while i < |btns|
      invariant 0 <= i <= |btns|
      invariant forall k :: 0 <= k < i ==> btns[k].Str?
    {
      if btns[i].NotStr? {
        return Failure(ButtonNotString);
      }
      i := i + 1;
    }
    var keyboard: seq<ReplyButton> := [];
    for j := 0 to |btns|
      invariant |keyboard| == j
      invariant forall k :: 0 <= k < j ==> btns[k] == Str(keyboard[k].text)
    {
      keyboard := keyboard + [ReplyButton(btns[j].s)];
    }
    return Success(keyboard);
  }

  // ---------------------------------------------------------------------
  // get_callback_btns

  /** What is wrong with one dict entry, checked in the source's order. */
  function EntryError(entry: (PyValue, PyValue)): (r: Option<KeyboardError>)
    ensures r.None? <==> entry.0.Str? && entry.1.Str?
    ensures r == Some(BothNotStrings) <==> entry.0.NotStr? && entry.1.NotStr?
    ensures r == Some(ButtonNotString) <==> entry.0.NotStr? && entry.1.Str?
    ensures r == Some(CallbackNotString) <==> entry.0.Str? && entry.1.NotStr?
  {
    if entry.0.NotStr? && entry.1.NotStr? then Some(BothNotStrings)
    else if entry.0.NotStr? then Some(ButtonNotString)
    else if entry.1.NotStr? then Some(CallbackNotString)
    else None
  }

  /** The error of the first bad entry, which is the one the source raises. */
  function FirstEntryError(items: seq<(PyValue, PyValue)>): (r: Option<KeyboardError>)
    ensures r.None? <==> forall i :: 0 <= i < |items| ==> EntryError(items[i]).None?
  {
    if items == [] then None
    else if EntryError(items[0]).Some? then EntryError(items[0])
    else FirstEntryError(items[1..])
  }

  /** The first bad entry decides the error. */
  lemma {:induction false} FirstEntryErrorAt(items: seq<(PyValue, PyValue)>, i: nat)
    requires i < |items| && EntryError(items[i]).Some?
    requires forall k :: 0 <= k < i ==> EntryError(items[k]).None?
    ensures FirstEntryError(items) == EntryError(items[i])
  {
    if i > 0 {
      FirstEntryErrorAt(items[1..], i - 1);
    }
  }

  /**
   * `get_callback_btns(btns=...)`: a dict, not empty, whose first bad entry
   * decides the error; otherwise one button per entry, in order.
   */
  method GetCallbackButtons(btns: ButtonsArg) returns (r: Result<seq<InlineButton<string>>, KeyboardError>)
    ensures btns.NotDict? ==> r == Failure(NotADict)
    ensures btns.Dict? && btns.items == [] ==> r == Failure(EmptyDict)
    ensures btns.Dict? && btns.items != [] && FirstEntryError(btns.items).Some? ==>
      r == Failure(FirstEntryError(btns.items).value)
    ensures r.Success? <==> btns.Dict? && btns.items != [] && FirstEntryError(btns.items).None?
    ensures r.Success? ==> |r.value| == |btns.items|
    ensures r.Success? ==>
      forall i :: 0 <= i < |btns.items| ==> btns.items[i] == (Str(r.value[i].text), Str(r.value[i].data))
  {
    if btns.NotDict? {
      return Failure(NotADict);
    }
    var items := btns.items;
    if items == [] {
      return Failure(EmptyDict);
    }
    var i := 0;
    while i < |items|
      invariant 0 <= i <= |items|
      invariant forall k :: 0 <= k < i ==> EntryError(items[k]).None?
    {
      var (button, call) := items[i];
      if button.NotStr? && call.NotStr? {
        FirstEntryErrorAt(items, i);
        return Failure(BothNotStrings);
      }
      if button.NotStr? {
        FirstEntryErrorAt(items, i);
        return Failure(ButtonNotString);
      }
      if call.NotStr? {
        FirstEntryErrorAt(items, i);
        return Failure(CallbackNotString);
      }
      i := i + 1;
    }
    var keyboard: seq<InlineButton<string>> := [];
    for j := 0 to |items|
      invariant |keyboard| == j
      invariant forall k :: 0 <= k < j ==> items[k] == (Str(keyboard[k].text), Str(keyboard[k].data))
    {
      keyboard := keyboard + [InlineButton(items[j].0.s, items[j].1.s)];
    }
    return Success(keyboard);
  }

  // ---------------------------------------------------------------------
  // Catalogue keyboard

  /** The catalogue keyboard: one button per category, leading one level down into it. */
  function CatalogKeyboard(level: int, categories: seq<Store.Category>): (kb: seq<InlineButton<MenuCallBack>>)
    ensures |kb| == |categories|
    ensures forall i :: 0 <= i < |categories| ==>
      kb[i].text == categories[i].name &&
      kb[i].data == MenuCallBack(level + 1, categories[i].name, Some(categories[i].id), 1, None)
  {
    seq(|categories|, i requires 0 <= i < |categories| =>
      InlineButton(categories[i].name, MenuCallBack(level + 1, categories[i].name, Some(categories[i].id), 1, None)))
  }

  /** `get_user_catalog_btns`. */
  method GetUserCatalogButtons(level: int, categories: seq<Store.Category>) returns (kb: seq<InlineButton<MenuCallBack>>)
    ensures kb == CatalogKeyboard(level, categories)
  {
    kb := [];
    for i := 0 to |categories|
      invariant kb == CatalogKeyboard(level, categories[..i])
    {
      var c := categories[i];
      kb := kb + [InlineButton(c.name, MenuCallBack(level + 1, c.name, Some(c.id), 1, None))];
    }
    assert categories[..|categories|] == categories;
  }

  // ---------------------------------------------------------------------
  // Pagination rows

  /**
   * The pagination row: one button per entry of `pagination` (text to action)
   * whose action is "next" or "previous", in order, carrying the payload for
   * that direction; any other entry is skipped.
   */
  function NavRow<P>(pagination: seq<(string, string)>, next: P, previous: P): (row: seq<InlineButton<P>>)
    ensures |row| <= |pagination|
    ensures forall b :: b in row ==> b.data == next || b.data == previous
    decreases |pagination|
  {
    if pagination == [] then []
    else
      var entry := pagination[|pagination| - 1];
      NavRow(pagination[..|pagination| - 1], next, previous)
      + (if entry.1 == "next" then [InlineButton(entry.0, next)]
         else if entry.1 == "previous" then [InlineButton(entry.0, previous)]
         else [])
  }

  /** An entry's action is "next" (resp. "previous") exactly when its button is in the row. */
  lemma {:induction false} NavRowHas<P>(pagination: seq<(string, string)>, next: P, previous: P, text: string)
    requires next != previous
    ensures InlineButton(text, next) in NavRow(pagination, next, previous) <==> (text, "next") in pagination
    ensures InlineButton(text, previous) in NavRow(pagination, next, previous) <==> (text, "previous") in pagination
    decreases |pagination|
  {
    if pagination != [] {
      var init := pagination[..|pagination| - 1];
      assert pagination == init + [pagination[|pagination| - 1]];
      NavRowHas(init, next, previous, text);
    }
  }

  function BuyButton(level: int, productId: int): InlineButton<MenuCallBack>
  {
    InlineButton("Купить 💵", MenuCallBack(level, "add_to_cart", None, 1, Some(productId)))
  }

  /** A product screen's keyboard: the buy button, then the pagination row. */
  datatype ProductKeyboard = ProductKeyboard(buy: InlineButton<MenuCallBack>, row: seq<InlineButton<MenuCallBack>>)

  function NextProduct(level: int, category: int, page: int): MenuCallBack
  {
    MenuCallBack(level, "next", Some(category), page + 1, None)
  }

  function PreviousProduct(level: int, category: int, page: int): MenuCallBack
  {
    MenuCallBack(level, "previous", Some(category), page - 1, None)
  }

  /** `get_products_btns`: buy the shown product, or move one page within the category. */
  method GetProductsButtons(level: int, category: int, page: int, pagination: seq<(string, string)>, productId: int)
    returns (kb: ProductKeyboard)
    ensures kb.buy == BuyButton(level, productId)
    ensures kb.buy.data.productId == Some(productId) && kb.buy.data.level == level
    ensures kb.row == NavRow(pagination, NextProduct(level, category, page), PreviousProduct(level, category, page))
  {
    var buy := InlineButton("Купить 💵", MenuCallBack(level, "add_to_cart", None, 1, Some(productId)));
    var row := [];
    for i := 0 to |pagination|
      invariant row == NavRow(pagination[..i], NextProduct(level, category, page), PreviousProduct(level, category, page))
    {
      var (text, menuName) := pagination[i];
      assert pagination[..i + 1][..i] == pagination[..i];
      if menuName == "next" {
        row := row + [InlineButton(text, MenuCallBack(level, menuName, Some(category), page + 1, None))];
      } else if menuName == "previous" {
        row := row + [InlineButton(text, MenuCallBack(level, menuName, Some(category), page - 1, None))];
      }
    }
    assert pagination[..|pagination|] == pagination;
    kb := ProductKeyboard(buy, row);
  }

  // ---------------------------------------------------------------------
  // Cart keyboard

  /** A cart screen's keyboard: delete, -1, +1 and order, then the pagination row. */
  datatype CartKeyboard = CartKeyboard(actions: seq<InlineButton<CartCallback>>, row: seq<InlineButton<CartCallback>>)

  /** The four action buttons: the first three act on the shown product at the shown page. */
  function CartActions(page: int, productId: Option<int>): (r: seq<InlineButton<CartCallback>>)
    ensures |r| == 4
    ensures forall i :: 0 <= i < 3 ==> r[i].data.page == page && r[i].data.productId == productId
    ensures r[3].data == CartCallback("order", 1, None)
  {
    [ InlineButton("Удалить", CartCallback("delete", page, productId)),
      InlineButton("-1", CartCallback("decrement", page, productId)),
      InlineButton("+1", CartCallback("increment", page, productId)),
      InlineButton("Заказать", CartCallback("order", 1, None)) ]
  }

  /** `get_user_cart`. */
  method GetUserCart(page: int, pagination: seq<(string, string)>, productId: Option<int>) returns (kb: CartKeyboard)
    ensures kb.actions == CartActions(page, productId)
    ensures kb.row == NavRow(pagination, CartCallback("next", page + 1, None), CartCallback("previous", page - 1, None))
  {
    var actions := [];
    actions := actions + [InlineButton("Удалить", CartCallback("delete", page, productId))];
    actions := actions + [InlineButton("-1", CartCallback("decrement", page, productId))];
    actions := actions + [InlineButton("+1", CartCallback("increment", page, productId))];
    actions := actions + [InlineButton("Заказать", CartCallback("order", 1, None))];
    var row := [];
    for i := 0 to |pagination|
      invariant row == NavRow(pagination[..i], CartCallback("next", page + 1, None), CartCallback("previous", page - 1, None))
    {
      var (text, menuName) := pagination[i];
      assert pagination[..i + 1][..i] == pagination[..i];
      if menuName == "next" {
        row := row + [InlineButton(text, CartCallback(menuName, page + 1, None))];
      } else if menuName == "previous" {
        row := row + [InlineButton(text, CartCallback(menuName, page - 1, None))];
      }
    }
    assert pagination[..|pagination|] == pagination;
    kb := CartKeyboard(actions, row);
  }
}
