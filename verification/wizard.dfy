/**
 * The administrator's side of handlers/admin.py: the six-step product
 * wizard (name, description, category, price, quantity, image), the banner
 * step, the global "отмена" (cancel) and "назад" (back) commands, and the
 * callbacks that list, delete and start editing products. One `Wizard`
 * object holds the conversation state, the data collected so far and the
 * edit target, as the chat library's state storage and the class-level
 * field `AddProduct.product_for_change` do in the source.
 */
module AdminWizard {
  import opened Wrappers
  import Store
  import Keyboards
  import PyText

  // ---------------------------------------------------------------------
  // States and collected data

  /** The states of `AddProduct`, in declaration order. */
  datatype Step = Name | Description | Category | Price | Quantity | Image

  /** `AddProduct.__all_states__`. */
  const ProductSteps: seq<Step> := [Name, Description, Category, Price, Quantity, Image]

  function StepIndex(s: Step): (i: nat)
    ensures i < |ProductSteps| && ProductSteps[i] == s
  {
    match s
    case Name => 0
    case Description => 1
    case Category => 2
    case Price => 3
    case Quantity => 4
    case Image => 5
  }

  /** The step before s in the product flow; the first step has none. */
  function PreviousStep(s: Step): (r: Option<Step>)
    ensures r.None? <==> s == Name
    ensures r.Some? ==> StepIndex(r.value) + 1 == StepIndex(s)
  {
    if s == Name then None else Some(ProductSteps[StepIndex(s) - 1])
  }

  /** The step after s; the last step has none. */
  function NextStep(s: Step): (r: Option<Step>)
    ensures r.None? <==> s == Image
    ensures r.Some? ==> StepIndex(r.value) == StepIndex(s) + 1
  {
    if s == Image then None else Some(ProductSteps[StepIndex(s) + 1])
  }

  /** Going back undoes going forward, and going forward undoes going back. */
  lemma BackUndoesForward(s: Step)
    ensures NextStep(s).Some? ==> PreviousStep(NextStep(s).value) == Some(s)
    ensures PreviousStep(s).Some? ==> NextStep(PreviousStep(s).value) == Some(s)
  {
  }

  /** No state, a step of the product flow, or the banner step (`Banner.image`). */
  datatype State = Idle | Adding(step: Step) | BannerImage

  /** The data stored so far; the price is in kopecks. */
  datatype Draft = Draft(
    name: Option<string>, description: Option<string>, category: Option<string>,
    price: Option<int>, quantity: Option<int>, image: Option<string>)

  const EmptyDraft: Draft := Draft(None, None, None, None, None, None)

  /** Every step before s has stored its field. */
  predicate Collected(d: Draft, s: Step)
  {
    var i := StepIndex(s);
    && (i > 0 ==> d.name.Some?)
    && (i > 1 ==> d.description.Some?)
    && (i > 2 ==> d.category.Some?)
    && (i > 3 ==> d.price.Some?)
    && (i > 4 ==> d.quantity.Some?)
  }

  // ---------------------------------------------------------------------
  // Replies

  /** The exception a handler raises; the chat library logs it and the state stays as it was. */
  datatype Crash =
    | MissingField   // KeyError on the collected data
    | BadNumber      // ValueError from int()
    | NoCaption      // AttributeError: a photo without a caption
    | EmptyButtons   // ValueError from get_callback_btns on an empty category list
    | NegativePrice  // ValueError from format_price

  /** What the bot answers; the texts themselves are left out. */
  datatype Reply =
    | Unhandled                                   // no handler of the admin router matches
    | ForCustomer                                 // the customer router, registered first, takes the update
    | Silent                                      // a handler ran and answered nothing
    | AdminMenu
    | CategoryMenu(buttons: seq<Keyboards.InlineButton<string>>)
    | ProductList(products: seq<Store.Product>)
    | ProductDeleted
    | AskBanner(pages: seq<string>)
    | WrongPageName(pages: seq<string>)
    | BannerSaved
    | AskName
    | AskDescription
    | ChooseCategory(buttons: seq<Keyboards.InlineButton<string>>)
    | AskPrice
    | InvalidPrice
    | AskQuantity
    | InvalidQuantity
    | AskImage
    | ProductSaved
    | NoPreviousStep
    | SteppedBack(step: Step)
    | Cancelled
    | Crashed(crash: Crash)

  // ---------------------------------------------------------------------
  // Category keyboards

  /** `{category.name: prefix + str(category.id) for category in categories}`, before de-duplication. */
  function CategoryPairs(categories: seq<Store.Category>, prefix: string): (r: seq<(string, string)>)
    ensures |r| == |categories|
    ensures forall i :: 0 <= i < |categories| ==> r[i] == (categories[i].name, prefix + PyText.IntText(categories[i].id))
  {
    seq(|categories|, i requires 0 <= i < |categories| => (categories[i].name, prefix + PyText.IntText(categories[i].id)))
  }

  /** One button per dict item. */
  function ButtonsOf(d: seq<(string, string)>): (r: seq<Keyboards.InlineButton<string>>)
    ensures |r| == |d| && forall i :: 0 <= i < |d| ==> r[i].text == d[i].0 && r[i].data == d[i].1
  {
    seq(|d|, i requires 0 <= i < |d| => Keyboards.InlineButton(d[i].0, d[i].1))
  }

  /** The keyboard `get_callback_btns` builds for the category dict, or the error it raises. */
  method CategoryKeyboard(categories: seq<Store.Category>, prefix: string) returns (r: Result<seq<Keyboards.InlineButton<string>>, Keyboards.KeyboardError>)
    ensures categories == [] ==> r == Failure(Keyboards.EmptyDict)
    ensures categories != [] ==> r == Success(ButtonsOf(PyText.DictFrom(CategoryPairs(categories, prefix))))
  {
    var d := PyText.DictFrom(CategoryPairs(categories, prefix));
    var items := seq(|d|, i requires 0 <= i < |d| => (Keyboards.Str(d[i].0), Keyboards.Str(d[i].1)));
    r := Keyboards.GetCallbackButtons(Keyboards.Dict(items));
    if categories != [] {
      assert r.Success?;
      assert r.value == ButtonsOf(d);
    }
  }

  // ---------------------------------------------------------------------
  // The image step, as written and corrected

  /** What the photo or "." adds to the collected data before the commit. */
  datatype ImageInput = Photo(fileId: string) | Dot

  /**
   * `add_image` as written: "." with an edit target stores the target's
   * image, a photo stores its file id, and "." without a target stores
   * nothing; the commit then reads the image and raises when none was stored.
   */
  function ImageCommitAsWritten(d: Draft, input: ImageInput, target: Option<Store.Product>): (r: Result<Draft, Crash>)
    ensures r.Failure? <==> input.Dot? && target.None? && d.image.None?
    ensures r.Failure? ==> r.error == MissingField
    ensures r.Success? ==> r.value.image.Some? && r.value == d.(image := r.value.image)
  {
    var stored := match input
      case Photo(f) => d.(image := Some(f))
      case Dot => if target.Some? then d.(image := Some(target.value.image)) else d;
    if stored.image.None? then Failure(MissingField) else Success(stored)
  }

  /** A new product finished with "." instead of a photo reaches the commit with no image, and the commit raises. */
  lemma DotWithoutTargetCrashes()
    ensures ImageCommitAsWritten(Draft(Some("Картина"), Some("Холст, масло"), Some("1"), Some(150000), Some(1), None), Dot, None)
      == Failure(MissingField)
  {
  }

  /**
   * The image step as intended: "." keeps the edit target's image, or else
   * the image already stored; with neither it means nothing, so the bot asks
   * for a photo again (`None`). Otherwise the draft goes to the commit with
   * an image.
   */
  function ImageForCommit(d: Draft, input: ImageInput, target: Option<Store.Product>): (r: Option<Draft>)
    ensures r.None? <==> input.Dot? && target.None? && d.image.None?
    ensures r.Some? ==> r.value.image.Some? && r.value == d.(image := r.value.image)
    ensures input.Photo? ==> r == Some(d.(image := Some(input.fileId)))
    ensures input.Dot? && target.Some? ==> r == Some(d.(image := Some(target.value.image)))
  {
    match input
    case Photo(f) => Some(d.(image := Some(f)))
    case Dot =>
      if target.Some? then Some(d.(image := Some(target.value.image)))
      else if d.image.Some? then Some(d)
      else None
  }

  /**
   * The corrected step differs from the written one only where the written
   * one raises: it re-prompts exactly there, and everywhere else it commits
   * the same data.
   */
  lemma ImageForCommitAgrees(d: Draft, input: ImageInput, target: Option<Store.Product>)
    ensures ImageCommitAsWritten(d, input, target).Failure? <==> ImageForCommit(d, input, target).None?
    ensures ImageCommitAsWritten(d, input, target).Success? ==>
      ImageCommitAsWritten(d, input, target).value == ImageForCommit(d, input, target).value
  {
  }

  /** The product fields the commit passes to `orm_add_product` or `orm_update_product`. */
  function Fields(d: Draft, categoryId: int): (f: Store.ProductFields)
    requires Collected(d, Image) && d.image.Some?
    ensures f.name == d.name.value && f.description == d.description.value && f.price == d.price.value
    ensures f.quantity == d.quantity.value && f.image == d.image.value && f.categoryId == categoryId
  {
    Store.ProductFields(d.name.value, d.description.value, d.price.value, d.quantity.value, d.image.value, categoryId)
  }

  // ---------------------------------------------------------------------
  // Routing

  const AdminCommandText: string := "/admin"
  const AssortmentText: string := "Ассортимент"
  const BannerText: string := "Добавить/изменить баннер"
  const AddProductText: string := "Добавить товар"
  const CancelWord: string := "отмена"
  /** The texts the customer router (handlers/users.py) answers before the admin router sees them. */
  const CustomerTexts: set<string> := {"/start", "Товары", "Корзина", "О магазине"}
  const BackWord: string := "назад"

  /** No text the customer router takes folds to the cancel or the back word. */
  lemma CustomerTextsAreNotCommands(text: string)
    requires text in CustomerTexts
    ensures PyText.CaseFold(text) != CancelWord && PyText.CaseFold(text) != BackWord
  {
    if text == "/start" {
      assert PyText.CaseFold(text)[0] == '/';
    } else if text == "Товары" {
      assert PyText.CaseFold(text)[0] == 'т';
    }
  }

  /** A text that starts with p does not start with a prefix q that differs from p at position i. */
  lemma DistinctPrefixes(data: string, p: string, q: string, i: nat)
    requires PyText.StartsWith(data, p) && i < |p| && i < |q| && p[i] != q[i]
    ensures !PyText.StartsWith(data, q)
  {
    assert data[i] == data[..|p|][i];
  }

  /** The texts the handlers registered before the product steps take in every state. */
  predicate TakenBeforeSteps(text: string)
  {
    || text in CustomerTexts || text == AdminCommandText || text == AssortmentText
    || PyText.CaseFold(text) == CancelWord || PyText.CaseFold(text) == BackWord
  }

  datatype TextRoute =
    | ToCustomer | ToAdminCommand | ToAssortment | ToBannerStart | ToStartProduct | ToCancel | ToBack
    | ToStep(step: Step) | NoTextRoute

  /** The message handler of the admin router that takes a text, in registration order. */
  function RouteText(state: State, text: string): (h: TextRoute)
    ensures h == ToCustomer <==> text in CustomerTexts
    ensures h == ToAdminCommand <==> text == AdminCommandText
    ensures h == ToAssortment <==> text == AssortmentText
    ensures h == ToCancel <==> PyText.CaseFold(text) == CancelWord
    ensures h == ToBack <==> PyText.CaseFold(text) == BackWord
    ensures h == ToStartProduct <==> state.Idle? && text == AddProductText
    ensures h == ToBannerStart <==> state.Idle? && text == BannerText
    ensures h.ToStep? ==> state == Adding(h.step) && h.step != Category && (h.step == Image ==> text == ".")
    ensures state.Idle? || state.BannerImage? ==> !h.ToStep?
    ensures h.ToStep? <==>
      && state.Adding? && state.step != Category && (state.step == Image ==> text == ".")
      && !TakenBeforeSteps(text)
    ensures h == NoTextRoute <==>
      && !TakenBeforeSteps(text)
      && !(state.Idle? && (text == AddProductText || text == BannerText))
      && !(state.Adding? && state.step != Category && (state.step == Image ==> text == "."))
  {
    if text in CustomerTexts then
      CustomerTextsAreNotCommands(text);
      ToCustomer
    else if text == AdminCommandText then
      assert PyText.CaseFold(text)[0] == '/';
      ToAdminCommand
    else if text == AssortmentText then ToAssortment
    else if state.Idle? && text == BannerText then ToBannerStart
    else if state.Idle? && text == AddProductText then ToStartProduct
    else if PyText.CaseFold(text) == CancelWord then ToCancel
    else if PyText.CaseFold(text) == BackWord then ToBack
    else if state.Adding? && state.step != Category && (state.step != Image || text == ".") then ToStep(state.step)
    else NoTextRoute
  }

  /** While a product is being entered, the start button's text is taken as the product's name. */
  lemma StartTextDuringNameIsAName()
    ensures RouteText(Adding(Name), AddProductText) == ToStep(Name)
  {
  }

  datatype CallbackRoute = ToCustomerCallback | ToListProducts | ToDeleteProduct | ToStartChange | ToChooseCategory | NoCallbackRoute

  /** The callback handler of the admin router that takes a callback's data, in registration order. */
  function RouteCallback(state: State, data: string): (h: CallbackRoute)
    ensures h == ToCustomerCallback <==> PyText.StartsWith(data, "menu:") || PyText.StartsWith(data, "cart:")
    ensures PyText.StartsWith(data, "category_") ==> h == ToListProducts
    ensures h == ToListProducts <==> PyText.StartsWith(data, "category_")
    ensures h == ToDeleteProduct <==> PyText.StartsWith(data, "delete_")
    ensures h == NoCallbackRoute <==>
      && !PyText.StartsWith(data, "menu:") && !PyText.StartsWith(data, "cart:")
      && !PyText.StartsWith(data, "category_") && !PyText.StartsWith(data, "delete_")
      && !(state.Idle? && PyText.StartsWith(data, "change_")) && state != Adding(Category)
    ensures h == ToStartChange <==> state.Idle? && PyText.StartsWith(data, "change_")
    ensures h == ToChooseCategory ==> state == Adding(Category)
    ensures state == Adding(Category) ==>
      (h == ToChooseCategory <==> h != ToCustomerCallback && !PyText.StartsWith(data, "category_") && !PyText.StartsWith(data, "delete_"))
  {
    if PyText.StartsWith(data, "menu:") then
      DistinctPrefixes(data, "menu:", "category_", 0);
      DistinctPrefixes(data, "menu:", "change_", 0);
      DistinctPrefixes(data, "menu:", "delete_", 0);
      ToCustomerCallback
    else if PyText.StartsWith(data, "cart:") then
      DistinctPrefixes(data, "cart:", "category_", 2);
      DistinctPrefixes(data, "cart:", "change_", 1);
      DistinctPrefixes(data, "cart:", "delete_", 0);
      ToCustomerCallback
    else if PyText.StartsWith(data, "category_") then
      DistinctPrefixes(data, "category_", "change_", 1);
      DistinctPrefixes(data, "category_", "delete_", 0);
      ToListProducts
    else if PyText.StartsWith(data, "delete_") then
      DistinctPrefixes(data, "delete_", "change_", 0);
      ToDeleteProduct
    else if state.Idle? && PyText.StartsWith(data, "change_") then ToStartChange
    else if state == Adding(Category) then ToChooseCategory
    else NoCallbackRoute
  }

  // ---------------------------------------------------------------------
  // The wizard

  /**
   * A Python number parser on message text, as the texts it accepts and the
   * number each gives; it raises ValueError on every other text, "." among them.
   */
  type Parser = m: imap<string, int> | "." !in m witness imap[]

  /** The parser applied to a text: `None` where it raises. */
  function Parse(p: Parser, text: string): (r: Option<int>)
    ensures r.Some? <==> text in p
    ensures text == "." ==> r.None?
  {
    if text in p then Some(p[text]) else None
  }

  class Wizard {
    var state: State
    var draft: Draft
    /** `AddProduct.product_for_change`: the product being edited, if any. */
    var productForChange: Option<Store.Product>
    const store: Store.Store
    /** Python's `float(text)` on a price, in kopecks; `None` where it raises ValueError, as on ".". */
    const parsePrice: Parser
    /** Python's `int(text)`; `None` where it raises ValueError, as on ".". */
    const parseInt: Parser

    /**
     * With no state active there is no collected data and no edit target;
     * on a product step, every earlier step has stored its field.
     */
    ghost predicate Consistent()
      reads this
    {
      && (state.Idle? || state.BannerImage? ==> draft == EmptyDraft && productForChange.None?)
      && (state.Adding? ==> Collected(draft, state.step))
    }

    /** The wizard is consistent and the database keeps its own invariant. */
    ghost predicate Valid()
      reads this, store
    {
      store.Valid() && Consistent()
    }

    constructor (store: Store.Store, parsePrice: Parser, parseInt: Parser)
      requires store.Valid()
      ensures Valid()
      ensures state == Idle && draft == EmptyDraft && productForChange.None?
      ensures this.store == store && this.parsePrice == parsePrice && this.parseInt == parseInt
    {
      this.store := store;
      this.parsePrice := parsePrice;
      this.parseInt := parseInt;
      state := Idle;
      draft := EmptyDraft;
      productForChange := None;
    }

    /** Neither the conversation nor the database changed. */
    twostate predicate Untouched()
      reads this, store
    {
      && state == old(state) && draft == old(draft) && productForChange == old(productForChange)
      && unchanged(store)
    }

    // -------------------------------------------------------------------
    // Catalogue management

    /** `admin_assortiment`: one button per category leading to its product list. */
    method Assortment() returns (reply: Reply)
      requires Valid()
      ensures store.categories == [] ==> reply == Crashed(EmptyButtons)
      ensures store.categories != [] ==>
        reply == CategoryMenu(ButtonsOf(PyText.DictFrom(CategoryPairs(store.categories, "category_"))))
    {
      var keyboard := CategoryKeyboard(store.categories, "category_");
      if keyboard.Failure? {
        return Crashed(EmptyButtons);
      }
      return CategoryMenu(keyboard.value);
    }

    /**
     * `look_at_product`: the products of the category whose id ends the
     * callback data; the price formatter raises on the first negative price.
     */
    function ListProducts(data: string): (reply: Reply)
      reads this, store
      requires Valid()
      ensures Parse(parseInt, PyText.LastSegment(data)).None? ==> reply == Crashed(BadNumber)
      ensures Parse(parseInt, PyText.LastSegment(data)).Some? ==>
        var ps := store.ProductsIn(Parse(parseInt, PyText.LastSegment(data)).value);
        reply == if exists i :: 0 <= i < |ps| && ps[i].price < 0 then Crashed(NegativePrice) else ProductList(ps)
    {
      match Parse(parseInt, PyText.LastSegment(data))
      case None => Crashed(BadNumber)
      case Some(cid) =>
        var ps := store.ProductsIn(cid);
        if exists i :: 0 <= i < |ps| && ps[i].price < 0 then Crashed(NegativePrice) else ProductList(ps)
    }

    /**
     * What `delete_product_callback` does, in any state: the product whose
     * id ends the callback data goes, with every cart line holding it; the
     * rest of the database and the conversation stay as they were.
     */
    twostate predicate DeleteProductEffect(data: string, reply: Reply)
      reads this, store
    {
      && state == old(state) && draft == old(draft) && productForChange == old(productForChange)
      && match Parse(parseInt, PyText.LastSegment(data))
         case None => reply == Crashed(BadNumber) && unchanged(store)
         case Some(id) =>
           && reply == ProductDeleted
           && store.products == old(store.products) - {id}
           && store.lines == Store.WithoutProduct(old(store.lines), id)
           && store.categories == old(store.categories) && store.banners == old(store.banners)
           && store.users == old(store.users) && store.nextProductId == old(store.nextProductId)
    }

    /** `delete_product_callback`. */
    method DeleteProductCallback(data: string) returns (reply: Reply)
      requires Valid()
      modifies store
      ensures Valid()
      ensures DeleteProductEffect(data, reply)
    {
      var id := Parse(parseInt, PyText.LastSegment(data));
      if id.None? {
        return Crashed(BadNumber);
      }
      store.DeleteProduct(id.value);
      return ProductDeleted;
    }

    // -------------------------------------------------------------------
    // Starting the product flow

    /** What `add_product` does: a new product starts at the name step with no data and no edit target. */
    twostate predicate StartProductEffect(reply: Reply)
      reads this, store
    {
      && state == Adding(Name) && draft == old(draft) && productForChange.None?
      && unchanged(store) && reply == AskName
    }

    /** `add_product`: "Добавить товар" with no state active. */
    method StartProduct() returns (reply: Reply)
      requires Valid() && state == Idle
      modifies this
      ensures Valid()
      ensures StartProductEffect(reply)
    {
      state := Adding(Name);
      reply := AskName;
    }

    /**
     * What `change_product_callback` does: "change_<id>" sets the edit target
     * to that product (or to nothing, when it does not exist) and starts at
     * the name step; an id that does not parse raises and nothing changes.
     */
    twostate predicate StartChangeEffect(data: string, reply: Reply)
      reads this, store
    {
      && unchanged(store)
      && match Parse(parseInt, PyText.LastSegment(data))
         case None =>
           reply == Crashed(BadNumber) && state == old(state) && draft == old(draft) && productForChange == old(productForChange)
         case Some(id) =>
           reply == AskName && state == Adding(Name) && draft == old(draft) && productForChange == store.GetProduct(id)
    }

    /** `change_product_callback`, with no state active. */
    method StartChange(data: string) returns (reply: Reply)
      requires Valid() && state == Idle
      modifies this
      ensures Valid()
      ensures StartChangeEffect(data, reply)
    {
      var id := Parse(parseInt, PyText.LastSegment(data));
      if id.None? {
        return Crashed(BadNumber);
      }
      productForChange := store.GetProduct(id.value);
      state := Adding(Name);
      reply := AskName;
    }

    // -------------------------------------------------------------------
    // The product steps

    /** What `add_name` does: "." with an edit target keeps the target's name; any other text is the name. */
    twostate predicate AddNameEffect(text: string, reply: Reply)
      reads this, store
    {
      && unchanged(store) && productForChange == old(productForChange)
      && draft == old(draft).(name := Some(
           if text == "." && productForChange.Some? then productForChange.value.name else text))
      && state == Adding(Description) && reply == AskDescription
    }

    /** `add_name`. */
    method AddName(text: string) returns (reply: Reply)
      requires Valid() && state == Adding(Name)
      modifies this
      ensures Valid()
      ensures AddNameEffect(text, reply)
    {
      if text == "." && productForChange.Some? {
        draft := draft.(name := Some(productForChange.value.name));
      } else {
        draft := draft.(name := Some(text));
      }
      state := Adding(Description);
      reply := AskDescription;
    }

    /**
     * What `add_description` does: it stores the description as `add_name`
     * stores the name, then offers one button per category; with no
     * categories the keyboard builder raises and the state stays at the
     * description step, with the description stored.
     */
    twostate predicate AddDescriptionEffect(text: string, reply: Reply)
      reads this, store
    {
      && unchanged(store) && productForChange == old(productForChange)
      && draft == old(draft).(description := Some(
           if text == "." && productForChange.Some? then productForChange.value.description else text))
      && (store.categories == [] ==> state == old(state) && reply == Crashed(EmptyButtons))
      && (store.categories != [] ==>
            && state == Adding(Category)
            && reply == ChooseCategory(ButtonsOf(PyText.DictFrom(CategoryPairs(store.categories, "")))))
    }

    /** `add_description`. */
    method AddDescription(text: string) returns (reply: Reply)
      requires Valid() && state == Adding(Description)
      modifies this
      ensures Valid()
      ensures AddDescriptionEffect(text, reply)
    {
      if text == "." && productForChange.Some? {
        draft := draft.(description := Some(productForChange.value.description));
      } else {
        draft := draft.(description := Some(text));
      }
      var keyboard := CategoryKeyboard(store.categories, "");
      if keyboard.Failure? {
        return Crashed(EmptyButtons);
      }
      state := Adding(Category);
      reply := ChooseCategory(keyboard.value);
    }

    /** What `category_choice_callback` does: any callback data reaching the category step is stored as the category. */
    twostate predicate CategoryChoiceEffect(data: string, reply: Reply)
      reads this, store
    {
      && unchanged(store) && productForChange == old(productForChange)
      && draft == old(draft).(category := Some(data))
      && state == Adding(Price) && reply == AskPrice
    }

    /** `category_choice_callback`. */
    method CategoryChoice(data: string) returns (reply: Reply)
      requires Valid() && state == Adding(Category)
      modifies this
      ensures Valid()
      ensures CategoryChoiceEffect(data, reply)
    {
      draft := draft.(category := Some(data));
      state := Adding(Price);
      reply := AskPrice;
    }

    /**
     * What `add_price` does: "." with an edit target keeps the target's
     * price; otherwise the text is parsed, and text that does not parse
     * (such as "." without a target) is refused with nothing changed. The
     * sign is not checked.
     */
    twostate predicate AddPriceEffect(text: string, reply: Reply)
      reads this, store
    {
      && unchanged(store) && productForChange == old(productForChange)
      && var price := if text == "." && productForChange.Some? then Some(productForChange.value.price) else Parse(parsePrice, text);
         if price.Some? then draft == old(draft).(price := price) && state == Adding(Quantity) && reply == AskQuantity
         else draft == old(draft) && state == old(state) && reply == InvalidPrice
    }

    /** `add_price`. */
    method AddPrice(text: string) returns (reply: Reply)
      requires Valid() && state == Adding(Price)
      modifies this
      ensures Valid()
      ensures AddPriceEffect(text, reply)
    {
      if text == "." && productForChange.Some? {
        draft := draft.(price := Some(productForChange.value.price));
      } else {
        var price := Parse(parsePrice, text);
        if price.None? {
          return InvalidPrice;
        }
        draft := draft.(price := price);
      }
      state := Adding(Quantity);
      reply := AskQuantity;
    }

    /**
     * What `add_quantity` does: "." with an edit target keeps the target's
     * quantity; otherwise the text is parsed as an integer, and text that
     * does not parse is refused with nothing changed. The sign is not checked.
     */
    twostate predicate AddQuantityEffect(text: string, reply: Reply)
      reads this, store
    {
      && unchanged(store) && productForChange == old(productForChange)
      && var quantity := if text == "." && productForChange.Some? then Some(productForChange.value.quantity) else Parse(parseInt, text);
         if quantity.Some? then draft == old(draft).(quantity := quantity) && state == Adding(Image) && reply == AskImage
         else draft == old(draft) && state == old(state) && reply == InvalidQuantity
    }

    /** `add_quantity`. */
    method AddQuantity(text: string) returns (reply: Reply)
      requires Valid() && state == Adding(Quantity)
      modifies this
      ensures Valid()
      ensures AddQuantityEffect(text, reply)
    {
      if text == "." && productForChange.Some? {
        draft := draft.(quantity := Some(productForChange.value.quantity));
      } else {
        var quantity := Parse(parseInt, text);
        if quantity.None? {
          return InvalidQuantity;
        }
        draft := draft.(quantity := quantity);
      }
      state := Adding(Image);
      reply := AskImage;
    }

    /**
     * What `add_image` does, with the image step corrected: the photo (or
     * ".", which keeps the edit target's image or the image already stored)
     * completes the data, which then updates the edit target or becomes a
     * new product, and the state, the data and the target are cleared. A
     * "." with no image to keep asks for a photo again. A category that does
     * not parse as an integer makes the commit raise with the image stored.
     */
    twostate predicate AddImageEffect(input: ImageInput, reply: Reply)
      requires old(Valid()) && old(state) == Adding(Image)
      reads this, store
    {
      match ImageForCommit(old(draft), input, old(productForChange))
      case None =>
        reply == AskImage && state == old(state) && draft == old(draft)
        && productForChange == old(productForChange) && unchanged(store)
      case Some(d) =>
        match Parse(parseInt, d.category.value)
        case None =>
          reply == Crashed(BadNumber) && state == old(state) && draft == d
          && productForChange == old(productForChange) && unchanged(store)
        case Some(categoryId) =>
          && reply == ProductSaved && state == Idle && draft == EmptyDraft && productForChange.None?
          && store.lines == old(store.lines) && store.categories == old(store.categories)
          && store.banners == old(store.banners) && store.users == old(store.users)
          && var f := Fields(d, categoryId);
          && (old(productForChange).Some? ==>
                var id := old(productForChange).value.id;
                && store.nextProductId == old(store.nextProductId)
                && store.products == if id in old(store.products)
                  then old(store.products)[id := Store.Product(id, f.name, f.description, f.price, f.image, f.categoryId, f.quantity)]
                  else old(store.products))
          && (old(productForChange).None? ==>
                var id := old(store.nextProductId);
                && store.nextProductId == id + 1
                && store.products == old(store.products)[id := Store.Product(id, f.name, f.description, f.price, f.image, f.categoryId, f.quantity)])
    }

    /** `add_image`, on a photo or on ".". */
    method AddImage(input: ImageInput) returns (reply: Reply)
      requires Valid() && state == Adding(Image)
      modifies this, store
      ensures Valid()
      ensures AddImageEffect(input, reply)
    {
      var completed := ImageForCommit(draft, input, productForChange);
      if completed.None? {
        return AskImage;
      }
      draft := completed.value;
      var categoryId := Parse(parseInt, draft.category.value);
      if categoryId.None? {
        return Crashed(BadNumber);
      }
      var f := Fields(draft, categoryId.value);
      if productForChange.Some? {
        store.UpdateProduct(productForChange.value.id, f);
      } else {
        var _ := store.AddProduct(f);
      }
      state := Idle;
      draft := EmptyDraft;
      productForChange := None;
      reply := ProductSaved;
    }

    // -------------------------------------------------------------------
    // Cancel and back

    /** What `cancel` does: from any active state it clears the state, the data and the edit target; with none, nothing. */
    twostate predicate CancelEffect(reply: Reply)
      reads this, store
    {
      && unchanged(store)
      && if old(state) == Idle then
           state == Idle && draft == old(draft) && productForChange == old(productForChange) && reply == Silent
         else
           state == Idle && draft == EmptyDraft && productForChange.None? && reply == Cancelled
    }

    /** `cancel`. */
    method Cancel() returns (reply: Reply)
      requires Valid()
      modifies this
      ensures Valid()
      ensures CancelEffect(reply)
    {
      if state == Idle {
        return Silent;
      }
      productForChange := None;
      state := Idle;
      draft := EmptyDraft;
      reply := Cancelled;
    }

    /**
     * `back_step`'s walk over `AddProduct.__all_states__`: whether the
     * current state is one of them, and the state seen just before it.
     */
    method FindPrevious(current: State) returns (found: bool, previous: Option<Step>)
      ensures found <==> current.Adding?
      ensures found ==> previous == PreviousStep(current.step)
    {
      previous := None;
      for i := 0 to |ProductSteps|
        invariant current.Adding? ==> StepIndex(current.step) >= i
        invariant previous == if i == 0 then None else Some(ProductSteps[i - 1])
      {
        if current == Adding(ProductSteps[i]) {
          assert StepIndex(current.step) == i;
          return true, previous;
        }
        previous := Some(ProductSteps[i]);
      }
      found := false;
    }

    /**
     * What `back_step` does: at the name step it only answers; at a later
     * product step it moves one step back and keeps the data; outside the
     * product flow it does nothing.
     */
    twostate predicate BackEffect(reply: Reply)
      reads this, store
    {
      && unchanged(store) && draft == old(draft) && productForChange == old(productForChange)
      && match old(state)
         case Adding(step) =>
           if step == Name then state == old(state) && reply == NoPreviousStep
           else state == Adding(PreviousStep(step).value) && reply == SteppedBack(PreviousStep(step).value)
         case _ => state == old(state) && reply == Silent
    }

    /** `back_step`. */
    method Back() returns (reply: Reply)
      requires Valid()
      modifies this
      ensures Valid()
      ensures BackEffect(reply)
    {
      if state == Adding(Name) {
        return NoPreviousStep;
      }
      var found, previous := FindPrevious(state);
      if found {
        state := Adding(previous.value);
        reply := SteppedBack(previous.value);
      } else {
        reply := Silent;
      }
    }

    // -------------------------------------------------------------------
    // The banner step

    /** What `add_content_for_banner` does: it asks for a banner photo naming one of the pages. */
    twostate predicate StartBannerEffect(reply: Reply)
      reads this, store
    {
      && state == BannerImage && draft == old(draft) && productForChange == old(productForChange)
      && unchanged(store) && reply == AskBanner(Store.Names(store.banners))
    }

    /** `add_content_for_banner`, with no state active. */
    method StartBanner() returns (reply: Reply)
      requires Valid() && state == Idle
      modifies this
      ensures Valid()
      ensures StartBannerEffect(reply)
    {
      state := BannerImage;
      reply := AskBanner(Store.Names(store.banners));
    }

    /**
     * What `add_banner` does once the caption is stripped: a caption naming
     * a page gives that page's banner the photo and clears the state;
     * otherwise the bot lists the pages again and nothing changes.
     */
    twostate predicate SaveBannerEffect(fileId: string, page: string, reply: Reply)
      reads this, store
    {
      && draft == old(draft) && productForChange == old(productForChange)
      && if page in Store.Names(old(store.banners)) then
           && reply == BannerSaved && state == Idle
           && store.banners == Store.SetBannerImage(old(store.banners), page, fileId)
           && store.products == old(store.products) && store.lines == old(store.lines)
           && store.categories == old(store.categories) && store.users == old(store.users)
           && store.nextProductId == old(store.nextProductId)
         else
           reply == WrongPageName(Store.Names(old(store.banners))) && state == old(state) && unchanged(store)
    }

    /** What `add_banner` does: as `SaveBannerEffect` on the stripped caption; a photo without a caption raises. */
    twostate predicate AddBannerEffect(fileId: string, caption: Option<string>, reply: Reply)
      reads this, store
    {
      match caption
      case None =>
        reply == Crashed(NoCaption) && state == old(state) && draft == old(draft)
        && productForChange == old(productForChange) && unchanged(store)
      case Some(c) => SaveBannerEffect(fileId, PyText.Strip(c), reply)
    }

    /** `add_banner`. */
    method AddBanner(fileId: string, caption: Option<string>) returns (reply: Reply)
      requires Valid() && state == BannerImage
      modifies this, store
      ensures Valid()
      ensures AddBannerEffect(fileId, caption, reply)
    {
      if caption.None? {
        return Crashed(NoCaption);
      }
      reply := SaveBanner(fileId, PyText.Strip(caption.value));
    }

    /** `add_banner` once the caption is stripped. */
    method SaveBanner(fileId: string, page: string) returns (reply: Reply)
      requires Valid() && state == BannerImage
      modifies this, store
      ensures Valid()
      ensures SaveBannerEffect(fileId, page, reply)
    {
      var names := Store.Names(store.banners);
      if page !in names {
        return WrongPageName(names);
      }
      store.ChangeBannerImage(page, fileId);
      state := Idle;
      reply := BannerSaved;
    }

    // -------------------------------------------------------------------
    // Dispatch

    /** A text message from the administrator, handled by the first matching handler. */
    method OnText(text: string) returns (reply: Reply)
      requires Valid()
      modifies this, store
      ensures Valid()
      ensures RouteText(old(state), text) == ToCustomer ==> Untouched() && reply == ForCustomer
      ensures RouteText(old(state), text) == ToAdminCommand ==> Untouched() && reply == AdminMenu
      ensures RouteText(old(state), text) == ToAssortment ==>
        && Untouched()
        && (store.categories == [] ==> reply == Crashed(EmptyButtons))
        && (store.categories != [] ==>
              reply == CategoryMenu(ButtonsOf(PyText.DictFrom(CategoryPairs(store.categories, "category_")))))
      ensures RouteText(old(state), text) == ToBannerStart ==> StartBannerEffect(reply)
      ensures RouteText(old(state), text) == ToStartProduct ==> StartProductEffect(reply)
      ensures RouteText(old(state), text) == ToCancel ==> CancelEffect(reply)
      ensures RouteText(old(state), text) == ToBack ==> BackEffect(reply)
      ensures RouteText(old(state), text) == ToStep(Name) ==> AddNameEffect(text, reply)
      ensures RouteText(old(state), text) == ToStep(Description) ==> AddDescriptionEffect(text, reply)
      ensures RouteText(old(state), text) == ToStep(Price) ==> AddPriceEffect(text, reply)
      ensures RouteText(old(state), text) == ToStep(Quantity) ==> AddQuantityEffect(text, reply)
      ensures RouteText(old(state), text) == ToStep(Image) ==> AddImageEffect(Dot, reply)
      ensures RouteText(old(state), text) == NoTextRoute ==> Untouched() && reply == Unhandled
    {
      match RouteText(state, text)
      case ToCustomer => reply := ForCustomer;
      case ToAdminCommand => reply := AdminMenu;
      case ToAssortment => reply := Assortment();
      case ToBannerStart => reply := StartBanner();
      case ToStartProduct => reply := StartProduct();
      case ToCancel => reply := Cancel();
      case ToBack => reply := Back();
      case ToStep(step) =>
        if step == Name {
          reply := AddName(text);
        } else if step == Description {
          reply := AddDescription(text);
        } else if step == Price {
          reply := AddPrice(text);
        } else if step == Quantity {
          reply := AddQuantity(text);
        } else {
          reply := AddImage(Dot);
        }
      case NoTextRoute => reply := Unhandled;
    }

    /** A photo from the administrator: the banner step or the image step takes it. */
    method OnPhoto(fileId: string, caption: Option<string>) returns (reply: Reply)
      requires Valid()
      modifies this, store
      ensures Valid()
      ensures old(state) == BannerImage ==> AddBannerEffect(fileId, caption, reply)
      ensures old(state) == Adding(Image) ==> AddImageEffect(Photo(fileId), reply)
      ensures old(state) == Idle || (old(state).Adding? && old(state).step != Image) ==> Untouched() && reply == Unhandled
    {
      if state == BannerImage {
        reply := AddBanner(fileId, caption);
      } else if state == Adding(Image) {
        reply := AddImage(Photo(fileId));
      } else {
        reply := Unhandled;
      }
    }

    /** A callback's data, handled by the first matching callback handler. */
    method OnCallback(data: string) returns (reply: Reply)
      requires Valid()
      modifies this, store
      ensures Valid()
      ensures RouteCallback(old(state), data) == ToCustomerCallback ==> Untouched() && reply == ForCustomer
      ensures RouteCallback(old(state), data) == ToListProducts ==> Untouched() && reply == ListProducts(data)
      ensures RouteCallback(old(state), data) == ToDeleteProduct ==> DeleteProductEffect(data, reply)
      ensures RouteCallback(old(state), data) == ToStartChange ==> StartChangeEffect(data, reply)
      ensures RouteCallback(old(state), data) == ToChooseCategory ==> CategoryChoiceEffect(data, reply)
      ensures RouteCallback(old(state), data) == NoCallbackRoute ==> Untouched() && reply == Unhandled
    {
      match RouteCallback(state, data)
      case ToCustomerCallback => reply := ForCustomer;
      case ToListProducts => reply := ListProducts(data);
      case ToDeleteProduct => reply := DeleteProductCallback(data);
      case ToStartChange => reply := StartChange(data);
      case ToChooseCategory => reply := CategoryChoice(data);
      case NoCallbackRoute => reply := Unhandled;
    }
  }
}
