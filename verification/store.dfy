/**
 * The record store of database/requests.py: categories, banners, products,
 * users and cart lines, with one atomic method per ORM request.
 *
 * A product's `quantity` is the stock still for sale; units in carts are
 * counted only in cart lines. Every cart operation moves units between the
 * two, so that stock plus units in carts stays constant per product.
 */
module Store {
  import opened Wrappers
  import PyText

  datatype Category = Category(id: int, name: string)

  datatype Banner = Banner(name: string, image: Option<string>, description: Option<string>)

  /** `price` is in kopecks. */
  datatype Product = Product(
    id: int, name: string, description: string, price: int,
    image: string, categoryId: int, quantity: int)

  datatype User = User(userId: int, firstName: Option<string>, lastName: Option<string>)

  datatype CartLine = CartLine(userId: int, productId: int, quantity: int)

  /** A cart line with its product joined in. */
  datatype CartEntry = CartEntry(line: CartLine, product: Product)

  /** The six fields `orm_add_product` and `orm_update_product` take, already converted. */
  datatype ProductFields = ProductFields(
    name: string, description: string, price: int,
    quantity: int, image: string, categoryId: int)

  // ---------------------------------------------------------------------
  // Units held in carts

  /** Units of product `pid` held in the lines `s`. */
  function InCart(s: seq<CartLine>, pid: int): int
  {
    if s == [] then 0
    else (if s[0].productId == pid then s[0].quantity else 0) + InCart(s[1..], pid)
  }

  function Units(l: CartLine, pid: int): int
  {
    if l.productId == pid then l.quantity else 0
  }

  lemma {:induction false} InCartConcat(a: seq<CartLine>, b: seq<CartLine>, pid: int)
    ensures InCart(a + b, pid) == InCart(a, pid) + InCart(b, pid)
  {
    if a == [] {
      assert a + b == b;
    } else {
      assert (a + b)[1..] == a[1..] + b;
      InCartConcat(a[1..], b, pid);
    }
  }

  lemma InCartAppend(s: seq<CartLine>, l: CartLine, pid: int)
    ensures InCart(s + [l], pid) == InCart(s, pid) + Units(l, pid)
  {
    InCartConcat(s, [l], pid);
  }

  /** Replacing line i changes the count by the difference of the two lines. */
  lemma InCartReplace(s: seq<CartLine>, i: nat, l: CartLine, pid: int)
    requires i < |s|
    ensures InCart(s[i := l], pid) == InCart(s, pid) - Units(s[i], pid) + Units(l, pid)
  {
    assert s == s[..i] + [s[i]] + s[i + 1..];
    assert s[i := l] == s[..i] + [l] + s[i + 1..];
    InCartConcat(s[..i] + [s[i]], s[i + 1..], pid);
    InCartConcat(s[..i] + [l], s[i + 1..], pid);
    InCartConcat(s[..i], [s[i]], pid);
    InCartConcat(s[..i], [l], pid);
  }

  function RemoveAt<T>(s: seq<T>, i: nat): seq<T>
    requires i < |s|
  {
    s[..i] + s[i + 1..]
  }

  /** Removing line i lowers the count by that line's units. */
  lemma InCartRemove(s: seq<CartLine>, i: nat, pid: int)
    requires i < |s|
    ensures InCart(RemoveAt(s, i), pid) == InCart(s, pid) - Units(s[i], pid)
  {
    assert s == s[..i] + [s[i]] + s[i + 1..];
    InCartConcat(s[..i] + [s[i]], s[i + 1..], pid);
    InCartConcat(s[..i], [s[i]], pid);
    InCartConcat(s[..i], s[i + 1..], pid);
  }

  // ---------------------------------------------------------------------
  // Looking up rows

  /** The index of the (user, product) line, as `select(Cart).where(...)`. */
  function FindLine(s: seq<CartLine>, uid: int, pid: int): (r: Option<nat>)
    ensures r.Some? ==> r.value < |s| && s[r.value].userId == uid && s[r.value].productId == pid
    ensures r.None? ==> forall i :: 0 <= i < |s| ==> !(s[i].userId == uid && s[i].productId == pid)
  {
    if s == [] then None
    else if s[0].userId == uid && s[0].productId == pid then Some(0)
    else match FindLine(s[1..], uid, pid)
      case None => None
      case Some(j) => Some(j + 1)
  }

  /** The units in user `uid`'s line for `pid`, or 0 when there is no such line. */
  function LineUnits(s: seq<CartLine>, uid: int, pid: int): int
  {
    match FindLine(s, uid, pid)
    case Some(i) => s[i].quantity
    case None => 0
  }

  /** The lines after one more unit of `pid` for user `uid`: that line grows by one, or a line of one is appended. */
  function AddUnit(s: seq<CartLine>, uid: int, pid: int): seq<CartLine>
  {
    match FindLine(s, uid, pid)
    case Some(i) => s[i := s[i].(quantity := s[i].quantity + 1)]
    case None => s + [CartLine(uid, pid, 1)]
  }

  /** One more unit keeps the line invariants and puts one more unit of `pid` into the carts. */
  lemma AddUnitKeepsLines(s: seq<CartLine>, uid: int, pid: int, products: map<int, Product>)
    requires forall l :: l in s ==> l.quantity >= 1 && l.productId in products
    requires UniquePairs(s) && pid in products
    ensures forall l :: l in AddUnit(s, uid, pid) ==> l.quantity >= 1 && l.productId in products
    ensures UniquePairs(AddUnit(s, uid, pid))
    ensures forall p :: InCart(AddUnit(s, uid, pid), p) == InCart(s, p) + (if p == pid then 1 else 0)
  {
    match FindLine(s, uid, pid)
    case Some(i) =>
      forall p
        ensures InCart(AddUnit(s, uid, pid), p) == InCart(s, p) + (if p == pid then 1 else 0)
      {
        InCartReplace(s, i, s[i].(quantity := s[i].quantity + 1), p);
      }
    case None =>
      forall p
        ensures InCart(AddUnit(s, uid, pid), p) == InCart(s, p) + (if p == pid then 1 else 0)
      {
        InCartAppend(s, CartLine(uid, pid, 1), p);
      }
  }

  /** The lines after user `uid`'s line for `pid`, if there is one, is deleted. */
  function DropLine(s: seq<CartLine>, uid: int, pid: int): seq<CartLine>
  {
    match FindLine(s, uid, pid)
    case Some(i) => RemoveAt(s, i)
    case None => s
  }

  /** The lines after one unit of `pid` leaves user `uid`'s cart: a line above one unit shrinks, a line of one goes. */
  function TakeUnit(s: seq<CartLine>, uid: int, pid: int): seq<CartLine>
  {
    match FindLine(s, uid, pid)
    case Some(i) => if s[i].quantity > 1 then s[i := s[i].(quantity := s[i].quantity - 1)] else RemoveAt(s, i)
    case None => s
  }

  /** The products after `delta` units of `pid` go back to stock (or leave it, when `delta` is negative). */
  function Restock(products: map<int, Product>, pid: int, delta: int): map<int, Product>
    requires pid in products
  {
    products[pid := products[pid].(quantity := products[pid].quantity + delta)]
  }

  /** At most one line per (user, product) pair. */
  predicate UniquePairs(s: seq<CartLine>)
  {
    forall i, j :: 0 <= i < j < |s| ==> !(s[i].userId == s[j].userId && s[i].productId == s[j].productId)
  }

  /** The lines whose product is not `pid`: the cascade of `ondelete='CASCADE'`. */
  function WithoutProduct(s: seq<CartLine>, pid: int): (r: seq<CartLine>)
    ensures forall l :: l in r <==> l in s && l.productId != pid
  {
    if s == [] then []
    else (if s[0].productId == pid then [] else [s[0]]) + WithoutProduct(s[1..], pid)
  }

  /** The cascade leaves other products' units in carts as they were. */
  lemma {:induction false} WithoutProductKeepsOthers(s: seq<CartLine>, pid: int, other: int)
    requires other != pid
    ensures InCart(WithoutProduct(s, pid), other) == InCart(s, other)
  {
    if s != [] {
      WithoutProductKeepsOthers(s[1..], pid, other);
      InCartConcat(if s[0].productId == pid then [] else [s[0]], WithoutProduct(s[1..], pid), other);
    }
  }

  /** Keeps order and the pair-uniqueness of a sequence of lines. */
  lemma {:induction false} WithoutProductSubsequence(s: seq<CartLine>, pid: int)
    requires UniquePairs(s)
    ensures UniquePairs(WithoutProduct(s, pid))
  {
    if s != [] {
      WithoutProductSubsequence(s[1..], pid);
      var rest := WithoutProduct(s[1..], pid);
      forall l | l in rest
        ensures !(l.userId == s[0].userId && l.productId == s[0].productId)
      {
        var k :| 0 <= k < |s[1..]| && s[1..][k] == l;
        assert s[k + 1] == l;
      }
    }
  }

  /** How many lines belong to user `uid`: the length of that user's cart. */
  function LinesOf(s: seq<CartLine>, uid: int): (n: nat)
    ensures n <= |s|
  {
    if s == [] then 0 else (if s[0].userId == uid then 1 else 0) + LinesOf(s[1..], uid)
  }

  lemma {:induction false} LinesOfConcat(a: seq<CartLine>, b: seq<CartLine>, uid: int)
    ensures LinesOf(a + b, uid) == LinesOf(a, uid) + LinesOf(b, uid)
  {
    if a == [] {
      assert a + b == b;
    } else {
      assert (a + b)[1..] == a[1..] + b;
      LinesOfConcat(a[1..], b, uid);
    }
  }

  /** Changing a line's quantity leaves the number of lines of every user as it was. */
  lemma LinesOfReplace(s: seq<CartLine>, i: nat, l: CartLine, uid: int)
    requires i < |s| && l.userId == s[i].userId
    ensures LinesOf(s[i := l], uid) == LinesOf(s, uid)
  {
    assert s == s[..i] + [s[i]] + s[i + 1..];
    assert s[i := l] == s[..i] + [l] + s[i + 1..];
    LinesOfConcat(s[..i] + [s[i]], s[i + 1..], uid);
    LinesOfConcat(s[..i] + [l], s[i + 1..], uid);
    LinesOfConcat(s[..i], [s[i]], uid);
    LinesOfConcat(s[..i], [l], uid);
  }

  /** Removing a line of user `uid` shortens that user's cart by one. */
  lemma LinesOfRemove(s: seq<CartLine>, i: nat, uid: int)
    requires i < |s|
    ensures LinesOf(RemoveAt(s, i), uid) == LinesOf(s, uid) - (if s[i].userId == uid then 1 else 0)
  {
    assert s == s[..i] + [s[i]] + s[i + 1..];
    LinesOfConcat(s[..i] + [s[i]], s[i + 1..], uid);
    LinesOfConcat(s[..i], [s[i]], uid);
    LinesOfConcat(s[..i], s[i + 1..], uid);
  }

  lemma LinesOfAppend(s: seq<CartLine>, l: CartLine, uid: int)
    ensures LinesOf(s + [l], uid) == LinesOf(s, uid) + (if l.userId == uid then 1 else 0)
  {
    LinesOfConcat(s, [l], uid);
  }

  /** The lines of user `uid` joined with their products, in stored order. */
  function Join(s: seq<CartLine>, products: map<int, Product>, uid: int): (r: seq<CartEntry>)
    requires forall l :: l in s ==> l.productId in products
    ensures |r| == LinesOf(s, uid) <= |s|
    ensures forall e :: e in r ==> e.line in s && e.line.userId == uid && e.product == products[e.line.productId]
    ensures (forall i :: 0 <= i < |s| ==> s[i].userId != uid) <==> r == []
    ensures forall i :: 0 <= i < |s| && s[i].userId == uid ==> CartEntry(s[i], products[s[i].productId]) in r
  {
    if s == [] then []
    else
      (if s[0].userId == uid then [CartEntry(s[0], products[s[0].productId])] else [])
      + Join(s[1..], products, uid)
  }

  /** Categories after `orm_create_categories`: seeded only into an empty table. */
  function SeedCategories(current: seq<Category>, names: seq<string>): (r: seq<Category>)
    ensures current != [] ==> r == current
    ensures current == [] ==> |r| == |names| && forall i :: 0 <= i < |names| ==> r[i] == Category(i + 1, names[i])
  {
    if current != [] then current else seq(|names|, i requires 0 <= i < |names| => Category(i + 1, names[i]))
  }

  /**
   * Banners after `orm_add_banner_description`: seeded only into an empty
   * table. The data is a dict from page name to description, so its names
   * are distinct, and so are the seeded banners' names.
   */
  function SeedBanners(current: seq<Banner>, data: seq<(string, string)>): (r: seq<Banner>)
    requires PyText.UniqueKeys(data)
    ensures current != [] ==> r == current
    ensures current == [] ==> |r| == |data|
    ensures current == [] ==> forall i :: 0 <= i < |data| ==> r[i] == Banner(data[i].0, None, Some(data[i].1))
    ensures current == [] ==> forall i, j :: 0 <= i < j < |r| ==> r[i].name != r[j].name
  {
    if current != [] then current else seq(|data|, i requires 0 <= i < |data| => Banner(data[i].0, None, Some(data[i].1)))
  }

  lemma SeedingTwiceIsSeedingOnce(c: seq<Category>, b: seq<Banner>, names: seq<string>, data: seq<(string, string)>)
    requires PyText.UniqueKeys(data)
    ensures SeedCategories(SeedCategories(c, names), names) == SeedCategories(c, names)
    ensures SeedBanners(SeedBanners(b, data), data) == SeedBanners(b, data)
  {
  }

  /** Users after `orm_add_user`: appended only when that user id is absent. */
  function AddUserIfAbsent(users: seq<User>, uid: int, first: Option<string>, last: Option<string>): (r: seq<User>)
    ensures (exists u :: u in users && u.userId == uid) ==> r == users
    ensures (forall u :: u in users ==> u.userId != uid) ==> r == users + [User(uid, first, last)]
  {
    if exists u :: u in users && u.userId == uid then users else users + [User(uid, first, last)]
  }

  lemma AddUserTwiceIsOnce(users: seq<User>, uid: int, first: Option<string>, last: Option<string>,
                           first2: Option<string>, last2: Option<string>)
    ensures AddUserIfAbsent(AddUserIfAbsent(users, uid, first, last), uid, first2, last2)
         == AddUserIfAbsent(users, uid, first, last)
  {
    var once := AddUserIfAbsent(users, uid, first, last);
    if forall u :: u in users ==> u.userId != uid {
      assert once[|users|] in once;
    }
  }

  /** Banners after `orm_change_banner_image`: only the image of banners so named changes. */
  function SetBannerImage(bs: seq<Banner>, name: string, image: string): (r: seq<Banner>)
    ensures |r| == |bs|
    ensures forall i :: 0 <= i < |bs| ==>
      r[i].name == bs[i].name && r[i].description == bs[i].description &&
      r[i].image == (if bs[i].name == name then Some(image) else bs[i].image)
  {
    seq(|bs|, i requires 0 <= i < |bs| => if bs[i].name == name then bs[i].(image := Some(image)) else bs[i])
  }

  /** The first banner with that name, as `result.scalar()`. */
  function FindBanner(bs: seq<Banner>, name: string): (r: Option<Banner>)
    ensures r.Some? ==> r.value in bs && r.value.name == name
    ensures r.None? <==> forall b :: b in bs ==> b.name != name
  {
    if bs == [] then None
    else if bs[0].name == name then Some(bs[0])
    else FindBanner(bs[1..], name)
  }

  function Names(bs: seq<Banner>): (r: seq<string>)
    ensures |r| == |bs| && forall i :: 0 <= i < |bs| ==> r[i] == bs[i].name
  {
    seq(|bs|, i requires 0 <= i < |bs| => bs[i].name)
  }

  // ---------------------------------------------------------------------
  // The store

  class Store {
    var categories: seq<Category>
    var banners: seq<Banner>
    var products: map<int, Product>
    var nextProductId: int
    var users: seq<User>
    var lines: seq<CartLine>

    ghost predicate Valid()
      reads this
    {
      && nextProductId >= 1
      && (forall id :: id in products ==> products[id].id == id && 1 <= id < nextProductId)
      && (forall l :: l in lines ==> l.quantity >= 1 && l.productId in products)
      && UniquePairs(lines)
    }

    /** Stock for sale plus units in carts: what cart operations conserve. */
    ghost function Total(pid: int): int
      reads this
      requires pid in products
    {
      products[pid].quantity + InCart(lines, pid)
    }

    constructor ()
      ensures Valid()
      ensures categories == [] && banners == [] && products == map[] && users == [] && lines == []
      ensures nextProductId == 1
    {
      categories, banners, products, users, lines := [], [], map[], [], [];
      nextProductId := 1;
    }

    /** `orm_get_product`. */
    function GetProduct(id: int): (r: Option<Product>)
      reads this
      ensures r.Some? <==> id in products
      ensures r.Some? ==> r.value == products[id]
    {
      if id in products then Some(products[id]) else None
    }

    /** `orm_get_products`: the products of one category, by ascending id. */
    function ProductsIn(categoryId: int): (r: seq<Product>)
      reads this
      requires Valid()
      ensures forall k :: k in products && products[k].categoryId == categoryId ==> products[k] in r
      ensures forall p :: p in r ==> p.id in products && products[p.id] == p && p.categoryId == categoryId
      ensures forall i, j :: 0 <= i < j < |r| ==> r[i].id < r[j].id
    {
      ProductsFrom(1, categoryId)
    }

    function ProductsFrom(id: int, categoryId: int): (r: seq<Product>)
      reads this
      requires Valid() && 1 <= id
      ensures forall k :: k in products && id <= k && products[k].categoryId == categoryId ==> products[k] in r
      ensures forall p :: p in r ==> p.id in products && products[p.id] == p && p.categoryId == categoryId && id <= p.id
      ensures forall i, j :: 0 <= i < j < |r| ==> r[i].id < r[j].id
      decreases nextProductId - id
    {
      if id >= nextProductId then []
      else
        (if id in products && products[id].categoryId == categoryId then [products[id]] else [])
        + ProductsFrom(id + 1, categoryId)
    }

    /** `orm_get_user_carts`: the user's lines with their products, in stored order. */
    function UserCart(uid: int): (r: seq<CartEntry>)
      reads this
      requires Valid()
      ensures |r| == LinesOf(lines, uid)
      ensures forall e :: e in r ==> e.line in lines && e.line.userId == uid && e.line.quantity >= 1
      ensures forall e :: e in r ==> e.product == products[e.line.productId]
      ensures forall i :: 0 <= i < |lines| && lines[i].userId == uid ==> CartEntry(lines[i], products[lines[i].productId]) in r
      ensures r == [] <==> forall i :: 0 <= i < |lines| ==> lines[i].userId != uid
    {
      Join(lines, products, uid)
    }

    /** `orm_get_banner`. */
    function GetBanner(name: string): (r: Option<Banner>)
      reads this
      ensures r.Some? ==> r.value in banners && r.value.name == name
      ensures r.None? <==> forall b :: b in banners ==> b.name != name
    {
      FindBanner(banners, name)
    }

    /** `orm_create_categories`: inserts the names only when the table is empty. */
    method CreateCategories(names: seq<string>)
      requires Valid()
      modifies this
      ensures Valid()
      ensures categories == SeedCategories(old(categories), names)
      ensures banners == old(banners) && products == old(products) && nextProductId == old(nextProductId)
      ensures users == old(users) && lines == old(lines)
    {
      if categories == [] {
        categories := SeedCategories(categories, names);
      }
    }

    /** `orm_add_banner_description`: inserts name/description pairs only when the table is empty. */
    method AddBannerDescription(data: seq<(string, string)>)
      requires Valid() && PyText.UniqueKeys(data)
      modifies this
      ensures Valid()
      ensures banners == SeedBanners(old(banners), data)
      ensures categories == old(categories) && products == old(products) && nextProductId == old(nextProductId)
      ensures users == old(users) && lines == old(lines)
    {
      if banners == [] {
        banners := SeedBanners(banners, data);
      }
    }

    /** `orm_change_banner_image`. */
    method ChangeBannerImage(name: string, image: string)
      requires Valid()
      modifies this
      ensures Valid()
      ensures banners == SetBannerImage(old(banners), name, image)
      ensures categories == old(categories) && products == old(products) && nextProductId == old(nextProductId)
      ensures users == old(users) && lines == old(lines)
    {
      banners := SetBannerImage(banners, name, image);
    }

    /** `orm_add_product`: a new row under the next id. */
    method AddProduct(f: ProductFields) returns (id: int)
      requires Valid()
      modifies this
      ensures Valid()
      ensures id == old(nextProductId) && id !in old(products)
      ensures nextProductId == old(nextProductId) + 1
      ensures products == old(products)[id := Product(id, f.name, f.description, f.price, f.image, f.categoryId, f.quantity)]
      ensures categories == old(categories) && banners == old(banners)
      ensures users == old(users) && lines == old(lines)
    {
      id := nextProductId;
      products := products[id := Product(id, f.name, f.description, f.price, f.image, f.categoryId, f.quantity)];
      nextProductId := nextProductId + 1;
    }

    /** `orm_update_product`: replaces all six fields of the product with that id, if any. */
    method UpdateProduct(id: int, f: ProductFields)
      requires Valid()
      modifies this
      ensures Valid()
      ensures id in old(products) ==>
        products == old(products)[id := Product(id, f.name, f.description, f.price, f.image, f.categoryId, f.quantity)]
      ensures id !in old(products) ==> products == old(products)
      ensures categories == old(categories) && banners == old(banners) && nextProductId == old(nextProductId)
      ensures users == old(users) && lines == old(lines)
    {
      if id in products {
        products := products[id := Product(id, f.name, f.description, f.price, f.image, f.categoryId, f.quantity)];
      }
    }

    /** `orm_delete_product`: removes the product and, by cascade, its cart lines. */
    method DeleteProduct(id: int)
      requires Valid()
      modifies this
      ensures Valid()
      ensures products == old(products) - {id}
      ensures lines == WithoutProduct(old(lines), id)
      ensures forall p :: p in products ==> Total(p) == old(Total(p))
      ensures categories == old(categories) && banners == old(banners) && nextProductId == old(nextProductId)
      ensures users == old(users)
    {
      WithoutProductSubsequence(lines, id);
      forall p | p in products && p != id
        ensures InCart(WithoutProduct(lines, id), p) == InCart(lines, p)
      {
        WithoutProductKeepsOthers(lines, id, p);
      }
      products := products - {id};
      lines := WithoutProduct(lines, id);
    }

    /** `orm_add_user`: inserts the user only when that user id is absent. */
    method AddUser(uid: int, first: Option<string>, last: Option<string>)
      requires Valid()
      modifies this
      ensures Valid()
      ensures users == AddUserIfAbsent(old(users), uid, first, last)
      ensures categories == old(categories) && banners == old(banners)
      ensures products == old(products) && nextProductId == old(nextProductId) && lines == old(lines)
    {
      users := AddUserIfAbsent(users, uid, first, last);
    }

    /**
     * `orm_add_to_cart`: takes one unit of stock into the user's line for the
     * product, creating the line at 1 when there is none. Refuses (false, no
     * change) when the product is absent or its stock is not positive.
     */
    method AddToCart(uid: int, pid: int) returns (ok: bool)
      requires Valid()
      modifies this
      ensures Valid()
      ensures ok <==> old(pid in products && products[pid].quantity > 0)
      ensures !ok ==> products == old(products) && lines == old(lines)
      ensures ok ==> products == old(products)[pid := old(products[pid]).(quantity := old(products[pid].quantity) - 1)]
      ensures ok && old(FindLine(lines, uid, pid)).Some? ==>
        var i := old(FindLine(lines, uid, pid)).value;
        lines == old(lines)[i := old(lines[i]).(quantity := old(lines[i].quantity) + 1)]
      ensures ok && old(FindLine(lines, uid, pid)).None? ==> lines == old(lines) + [CartLine(uid, pid, 1)]
      ensures ok ==> lines == AddUnit(old(lines), uid, pid) && products == Restock(old(products), pid, -1)
      ensures products.Keys == old(products.Keys)
      ensures forall p :: p in products ==> Total(p) == old(Total(p))
      ensures forall p :: p in products && old(products[p].quantity) >= 0 ==> products[p].quantity >= 0
      ensures categories == old(categories) && banners == old(banners) && nextProductId == old(nextProductId)
      ensures users == old(users)
    {
      if pid !in products || products[pid].quantity <= 0 {
        return false;
      }
      AddUnitKeepsLines(lines, uid, pid, products);
      lines := AddUnit(lines, uid, pid);
      products := Restock(products, pid, -1);
      ok := true;
    }

    /**
     * `orm_delete_from_cart`: gives the line's whole quantity back to stock and
     * deletes the line; nothing happens when there is no such line.
     */
    method DeleteFromCart(uid: int, pid: int)
      requires Valid()
      modifies this
      ensures Valid()
      ensures old(FindLine(lines, uid, pid)).None? ==> products == old(products) && lines == old(lines)
      ensures old(FindLine(lines, uid, pid)).Some? ==>
        var i := old(FindLine(lines, uid, pid)).value;
        && lines == RemoveAt(old(lines), i)
        && products == old(products)[pid := old(products[pid]).(quantity := old(products[pid].quantity) + old(lines[i].quantity))]
      ensures lines == DropLine(old(lines), uid, pid)
      ensures old(FindLine(lines, uid, pid)).Some? ==> products == Restock(old(products), pid, old(LineUnits(lines, uid, pid)))
      ensures products.Keys == old(products.Keys)
      ensures forall p :: p in products ==> Total(p) == old(Total(p))
      ensures forall p :: p in products && old(products[p].quantity) >= 0 ==> products[p].quantity >= 0
      ensures categories == old(categories) && banners == old(banners) && nextProductId == old(nextProductId)
      ensures users == old(users)
    {
      var found := FindLine(lines, uid, pid);
      if found.Some? {
        var i := found.value;
        var line := lines[i];
        var product := products[pid];
        forall p | p in products
          ensures InCart(RemoveAt(lines, i), p) == InCart(lines, p) - (if p == pid then line.quantity else 0)
        {
          InCartRemove(lines, i, p);
        }
        RemovePreservesLines(lines, i);
        lines := RemoveAt(lines, i);
        products := products[pid := product.(quantity := product.quantity + line.quantity)];
      }
    }

    /**
     * `orm_reduce_product_in_cart`: one unit back to stock. A line above 1 is
     * lowered and true returned; a line at 1 is deleted and false returned;
     * with no line nothing changes and false is returned.
     */
    method ReduceInCart(uid: int, pid: int) returns (kept: bool)
      requires Valid()
      modifies this
      ensures Valid()
      ensures kept <==> old(FindLine(lines, uid, pid)).Some? && old(lines[FindLine(lines, uid, pid).value].quantity) > 1
      ensures old(FindLine(lines, uid, pid)).None? ==> products == old(products) && lines == old(lines)
      ensures old(FindLine(lines, uid, pid)).Some? ==>
        var i := old(FindLine(lines, uid, pid)).value;
        && products == old(products)[pid := old(products[pid]).(quantity := old(products[pid].quantity) + 1)]
        && lines == if kept then old(lines)[i := old(lines[i]).(quantity := old(lines[i].quantity) - 1)]
                   else RemoveAt(old(lines), i)
      ensures lines == TakeUnit(old(lines), uid, pid)
      ensures old(FindLine(lines, uid, pid)).Some? ==> products == Restock(old(products), pid, 1)
      ensures products.Keys == old(products.Keys)
      ensures forall p :: p in products ==> Total(p) == old(Total(p))
      ensures forall p :: p in products && old(products[p].quantity) >= 0 ==> products[p].quantity >= 0
      ensures categories == old(categories) && banners == old(banners) && nextProductId == old(nextProductId)
      ensures users == old(users)
    {
      var found := FindLine(lines, uid, pid);
      if found.None? {
        return false;
      }
      var i := found.value;
      var line := lines[i];
      var product := products[pid];
      if line.quantity > 1 {
        var newLine := line.(quantity := line.quantity - 1);
        forall p | p in products
          ensures InCart(lines[i := newLine], p) == InCart(lines, p) - (if p == pid then 1 else 0)
        {
          InCartReplace(lines, i, newLine, p);
        }
        lines := lines[i := newLine];
        kept := true;
      } else {
        forall p | p in products
          ensures InCart(RemoveAt(lines, i), p) == InCart(lines, p) - (if p == pid then 1 else 0)
        {
          InCartRemove(lines, i, p);
        }
        RemovePreservesLines(lines, i);
        lines := RemoveAt(lines, i);
        kept := false;
      }
      products := products[pid := product.(quantity := product.quantity + 1)];
    }
  }

  /** Deleting a line keeps every other line, in order, and keeps pairs unique. */
  lemma RemovePreservesLines(s: seq<CartLine>, i: nat)
    requires i < |s| && UniquePairs(s)
    ensures UniquePairs(RemoveAt(s, i))
    ensures forall l :: l in RemoveAt(s, i) ==> l in s
  {
    var r := RemoveAt(s, i);
    forall a, b | 0 <= a < b < |r|
      ensures !(r[a].userId == r[b].userId && r[a].productId == r[b].productId)
    {
      var a' := if a < i then a else a + 1;
      var b' := if b < i then b else b + 1;
      assert r[a] == s[a'] && r[b] == s[b'];
    }
  }

  /** Deleting the found line leaves no line for that (user, product) pair. */
  lemma RemoveFoundLine(s: seq<CartLine>, uid: int, pid: int)
    requires UniquePairs(s) && FindLine(s, uid, pid).Some?
    ensures FindLine(RemoveAt(s, FindLine(s, uid, pid).value), uid, pid).None?
  {
    var i := FindLine(s, uid, pid).value;
    var r := RemoveAt(s, i);
    forall j | 0 <= j < |r|
      ensures !(r[j].userId == uid && r[j].productId == pid)
    {
      var j' := if j < i then j else j + 1;
      assert r[j] == s[j'];
    }
  }
}
