/** The per-user cart store of src/cart/cart_state.py. A user's cart is a Python dict from product
    id to item; dicts keep insertion order, so a cart is modelled as the sequence of its items in
    that order, with no product id twice. */
module CartStore {
  import opened Wrappers
  import opened Decimals

  datatype CartItem = CartItem(productId: string, name: string, price: Decimal, quantity: int,
                               imageUrl: Option<string>)

  /** The dict form of an item (`to_dict`): the price travels as its decimal string. */
  datatype ItemDict = ItemDict(productId: string, name: string, price: string, quantity: int,
                               imageUrl: Option<string>)

  function ToDict(item: CartItem): (d: ItemDict)
    ensures d.productId == item.productId && d.name == item.name
    ensures d.quantity == item.quantity && d.imageUrl == item.imageUrl
    ensures d.price == ToString(item.price)
  {
    ItemDict(item.productId, item.name, ToString(item.price), item.quantity, item.imageUrl)
  }

  /** `from_dict`: `Decimal(price)` raises on text it cannot read, modelled as `None`. */
  function FromDict(d: ItemDict): (r: Option<CartItem>)
    ensures r.Some? <==> Parse(d.price).Some?
  {
    match Parse(d.price)
    case Some(p) => Some(CartItem(d.productId, d.name, p, d.quantity, d.imageUrl))
    case None => None
  }

  /** `from_dict(to_dict(item))` gives back the item, price included. */
  lemma FromDictToDict(item: CartItem)
    ensures FromDict(ToDict(item)) == Some(item)
  {
    ParseToString(item.price);
  }

  /** A cart: the items of `cart_state`'s per-user dictionary, in insertion order, one per product id. */
  type CartItems = seq<CartItem>

  predicate UniqueIds(c: CartItems)
  {
    forall i, j :: 0 <= i < j < |c| ==> c[i].productId != c[j].productId
  }

  predicate Contains(c: CartItems, productId: string)
  {
    exists i :: 0 <= i < |c| && c[i].productId == productId
  }

  /** The position of `productId` in the cart. */
  function IndexOf(c: CartItems, productId: string): (i: nat)
    requires Contains(c, productId)
    ensures i < |c| && c[i].productId == productId
  {
    if c[0].productId == productId then 0 else 1 + IndexOf(c[1..], productId)
  }

  /** `cart.get(product_id)`: the item stored under a product id. */
  function Find(c: CartItems, productId: string): (r: Option<CartItem>)
    ensures r.None? <==> !Contains(c, productId)
    ensures r.Some? ==> r.value in c && r.value.productId == productId
  {
    if c == [] then None
    else if c[0].productId == productId then Some(c[0])
    else
      var r := Find(c[1..], productId);
      assert Contains(c, productId) ==> Contains(c[1..], productId) by {
        if Contains(c, productId) {
          var i :| 0 <= i < |c| && c[i].productId == productId;
          assert c[1..][i - 1] == c[i];
        }
      }
      r
  }

  /** In a cart without repeated ids, the item at any position is what `Find` returns. */
  lemma {:induction false} FindAt(c: CartItems, i: nat)
    requires UniqueIds(c) && i < |c|
    ensures Find(c, c[i].productId) == Some(c[i])
  {
    if i > 0 {
      assert c[1..][i - 1] == c[i];
      FindAt(c[1..], i - 1);
    }
  }

  /** What `add_item` does to one cart: a product already present gets the new quantity added
      in place; a new product is appended. */
  function Added(c: CartItems, item: CartItem): (r: CartItems)
    requires UniqueIds(c)
    ensures UniqueIds(r)
  {
    if Contains(c, item.productId) then
      var i := IndexOf(c, item.productId);
      ReplaceAt(c, i, c[i].(quantity := c[i].quantity + item.quantity));
      c[i := c[i].(quantity := c[i].quantity + item.quantity)]
    else
      AppendUnique(c, item);
      c + [item]
  }

  /** A cart an item was added to is never empty. */
  lemma AddedNotEmpty(c: CartItems, item: CartItem)
    requires UniqueIds(c)
    ensures Added(c, item) != []
  {
    if Contains(c, item.productId) {
      var i := IndexOf(c, item.productId);
      assert |Added(c, item)| == |c| > i;
    }
  }

  /** Adding a product already in the cart adds the quantities and keeps its name, price and image;
      adding a new product stores exactly the given item; no other product changes. */
  lemma AddedFind(c: CartItems, item: CartItem)
    requires UniqueIds(c)
    ensures Find(Added(c, item), item.productId) ==
              Some(match Find(c, item.productId)
                   case Some(was) => was.(quantity := was.quantity + item.quantity)
                   case None => item)
    ensures forall p :: p != item.productId ==> Find(Added(c, item), p) == Find(c, p)
  {
    var r := Added(c, item);
    if Contains(c, item.productId) {
      var i := IndexOf(c, item.productId);
      FindAt(c, i);
      ReplaceAt(c, i, c[i].(quantity := c[i].quantity + item.quantity));
      FindAt(r, i);
    } else {
      AppendUnique(c, item);
      assert r[|c|] == item;
      FindAt(r, |c|);
    }
  }

  /** Replacing the item at `i` by one with the same product id leaves every other lookup as it
      was. */
  lemma ReplaceAt(c: CartItems, i: nat, x: CartItem)
    requires UniqueIds(c) && i < |c| && x.productId == c[i].productId
    ensures UniqueIds(c[i := x])
    ensures forall p :: p != x.productId ==> Find(c[i := x], p) == Find(c, p)
  {
    var r := c[i := x];
    forall p | p != x.productId
      ensures Find(r, p) == Find(c, p)
    {
      if Contains(c, p) {
        var j := IndexOf(c, p);
        FindAt(c, j);
        FindAt(r, j);
      } else {
        forall j | 0 <= j < |r| ensures r[j].productId != p {
          assert j != i ==> r[j] == c[j];
        }
      }
    }
  }

  lemma AppendUnique(c: CartItems, item: CartItem)
    requires UniqueIds(c) && !Contains(c, item.productId)
    ensures UniqueIds(c + [item])
    ensures forall p :: p != item.productId ==> Find(c + [item], p) == Find(c, p)
  {
    var r := c + [item];
    forall i, j | 0 <= i < j < |r|
      ensures r[i].productId != r[j].productId
    {
      if j == |c| {
        assert r[i] == c[i];
      }
    }
    forall p | p != item.productId
      ensures Find(r, p) == Find(c, p)
    {
      if Contains(c, p) {
        var j := IndexOf(c, p);
        FindAt(c, j);
        assert r[j] == c[j];
        FindAt(r, j);
      } else {
        forall j | 0 <= j < |r| ensures r[j].productId != p {
          if j < |c| {
            assert r[j] == c[j];
          }
        }
      }
    }
  }

  /** `del cart[product_id]` when it is present; the cart as it was otherwise. */
  function Removed(c: CartItems, productId: string): (r: CartItems)
    requires UniqueIds(c)
    ensures UniqueIds(r)
  {
    if Contains(c, productId) then
      var i := IndexOf(c, productId);
      DeleteUnique(c, i);
      c[..i] + c[i + 1..]
    else c
  }

  /** After removal the product is absent, every other product is as it was, and the cart is one
      item shorter exactly when the product was there. */
  lemma RemovedFind(c: CartItems, productId: string)
    requires UniqueIds(c)
    ensures Find(Removed(c, productId), productId) == None
    ensures forall p :: p != productId ==> Find(Removed(c, productId), p) == Find(c, p)
    ensures |Removed(c, productId)| == if Contains(c, productId) then |c| - 1 else |c|
  {
    if Contains(c, productId) {
      var i := IndexOf(c, productId);
      DeleteUnique(c, i);
      DeleteFind(c, i);
    }
  }

  lemma DeleteUnique(c: CartItems, i: nat)
    requires UniqueIds(c) && i < |c|
    ensures UniqueIds(c[..i] + c[i + 1..])
  {
    var r := c[..i] + c[i + 1..];
    forall a, b | 0 <= a < b < |r|
      ensures r[a].productId != r[b].productId
    {
      var a', b' := if a < i then a else a + 1, if b < i then b else b + 1;
      assert r[a] == c[a'] && r[b] == c[b'];
    }
  }

  lemma DeleteFind(c: CartItems, i: nat)
    requires UniqueIds(c) && i < |c|
    ensures !Contains(c[..i] + c[i + 1..], c[i].productId)
    ensures forall p :: p != c[i].productId ==> Find(c[..i] + c[i + 1..], p) == Find(c, p)
  {
    DeleteAbsent(c, i);
    forall p | p != c[i].productId
      ensures Find(c[..i] + c[i + 1..], p) == Find(c, p)
    {
      DeleteKeeps(c, i, p);
    }
  }

  /** The deleted item's id no longer occurs. */
  lemma DeleteAbsent(c: CartItems, i: nat)
    requires UniqueIds(c) && i < |c|
    ensures !Contains(c[..i] + c[i + 1..], c[i].productId)
  {
    var r := c[..i] + c[i + 1..];
    forall k | 0 <= k < |r| ensures r[k].productId != c[i].productId {
      assert r[k] == c[if k < i then k else k + 1];
    }
  }

  /** Any other id is found as before. */
  lemma DeleteKeeps(c: CartItems, i: nat, p: string)
    requires UniqueIds(c) && i < |c| && p != c[i].productId
    ensures Find(c[..i] + c[i + 1..], p) == Find(c, p)
  {
    if Contains(c, p) {
      DeleteKeepsPresent(c, i, p);
    } else {
      DeleteKeepsAbsent(c, i, p);
    }
  }

  lemma DeleteKeepsPresent(c: CartItems, i: nat, p: string)
    requires UniqueIds(c) && i < |c| && p != c[i].productId && Contains(c, p)
    ensures Find(c[..i] + c[i + 1..], p) == Find(c, p)
  {
    DeleteUnique(c, i);
    var j := IndexOf(c, p);
    FindAt(c, j);
    var j' := DeletedIndex(c, i, j);
    FindAt(c[..i] + c[i + 1..], j');
  }

  /** Where the item at `j` sits once the item at `i` is deleted. */
  lemma DeletedIndex(c: CartItems, i: nat, j: nat) returns (j': nat)
    requires i < |c| && j < |c| && j != i
    ensures j' < |c| - 1 && (c[..i] + c[i + 1..])[j'] == c[j]
  {
    if j < i {
      j' := j;
    } else {
      j' := j - 1;
    }
  }

  lemma DeleteKeepsAbsent(c: CartItems, i: nat, p: string)
    requires i < |c| && !Contains(c, p)
    ensures Find(c[..i] + c[i + 1..], p).None?
  {
    var r := c[..i] + c[i + 1..];
    forall k | 0 <= k < |r| ensures r[k].productId != p {
      assert r[k] == c[if k < i then k else k + 1];
    }
  }

  /** What `update_quantity` does to one cart: a positive quantity replaces the item's quantity,
      zero or less deletes the item, an absent product leaves the cart as it was. */
  function Updated(c: CartItems, productId: string, quantity: int): (r: CartItems)
    requires UniqueIds(c)
    ensures UniqueIds(r)
    ensures !Contains(c, productId) ==> r == c
    ensures quantity > 0 ==> |r| == |c|
  {
    if Contains(c, productId) then
      if quantity > 0 then
        var i := IndexOf(c, productId);
        ReplaceAt(c, i, c[i].(quantity := quantity));
        c[i := c[i].(quantity := quantity)]
      else Removed(c, productId)
    else c
  }

  /** A positive quantity is stored on the item, keeping its other fields; zero or less has the
      same effect as removing the product; no other product changes. */
  lemma UpdatedFind(c: CartItems, productId: string, quantity: int)
    requires UniqueIds(c)
    ensures quantity <= 0 ==> Updated(c, productId, quantity) == Removed(c, productId)
    ensures quantity > 0 ==>
              Find(Updated(c, productId, quantity), productId) ==
                match Find(c, productId)
                case Some(was) => Some(was.(quantity := quantity))
                case None => None
    ensures forall p :: p != productId ==> Find(Updated(c, productId, quantity), p) == Find(c, p)
  {
    var r := Updated(c, productId, quantity);
    if Contains(c, productId) {
      var i := IndexOf(c, productId);
      FindAt(c, i);
      if quantity > 0 {
        ReplaceAt(c, i, c[i].(quantity := quantity));
        FindAt(r, i);
      } else {
        RemovedFind(c, productId);
      }
    }
  }

  /** `get_total`: `sum(item.price * item.quantity ...)`, left to right from the integer 0. */
  function Total(c: CartItems): (t: Decimal)
    ensures Value(t) == RealTotal(c)
  {
    if c == [] then Zero
    else
      var last := c[|c| - 1];
      Add(Total(c[..|c| - 1]), MulInt(last.price, last.quantity))
  }

  /** The sum of price times quantity over the items, as exact numbers. */
  ghost function RealTotal(c: CartItems): real
  {
    if c == [] then 0.0 else RealTotal(c[..|c| - 1]) + Value(c[|c| - 1].price) * c[|c| - 1].quantity as real
  }

  /** The store itself: `carts` maps a user to their cart and `last_modified` maps the same users
      to the time of the last change (an integer clock, passed in). */
  class CartState {
    var carts: map<string, CartItems>
    var lastModified: map<string, int>

    ghost predicate Valid()
      reads this
    {
      && carts.Keys == lastModified.Keys
      && forall u :: u in carts ==> UniqueIds(carts[u])
    }

    /** The user's cart as a lookup would find it, empty for an unknown user. */
    function CartOf(user: string): (c: CartItems)
      reads this
      requires Valid()
      ensures UniqueIds(c)
    {
      if user in carts then carts[user] else []
    }

    constructor ()
      ensures Valid() && carts == map[] && lastModified == map[]
    {
      carts := map[];
      lastModified := map[];
    }

    /** `get_cart`: an unknown user gets an empty cart and a `last_modified` entry. */
    method GetCart(user: string, now: int) returns (cart: CartItems)
      requires Valid()
      modifies this
      ensures Valid()
      ensures cart == old(CartOf(user))
      ensures carts == old(carts)[user := cart]
      ensures lastModified == if user in old(carts) then old(lastModified)
                              else old(lastModified)[user := now]
    {
      if user !in carts {
        carts := carts[user := []];
        lastModified := lastModified[user := now];
      }
      cart := carts[user];
    }

    method AddItem(user: string, item: CartItem, now: int)
      requires Valid()
      modifies this
      ensures Valid()
      ensures carts == old(carts)[user := Added(old(CartOf(user)), item)]
      ensures lastModified == old(lastModified)[user := now]
    {
      var cart := GetCart(user, now);
      ghost var before := cart;
      if Contains(cart, item.productId) {
        var i := IndexOf(cart, item.productId);
        cart := cart[i := cart[i].(quantity := cart[i].quantity + item.quantity)];
        assert cart == Added(before, item);
      } else {
        cart := cart + [item];
        assert cart == Added(before, item);
      }
      SetCart(user, cart, now);
    }

    /** Stores a user's cart and stamps it. */
    method SetCart(user: string, cart: CartItems, now: int)
      requires Valid() && UniqueIds(cart)
      modifies this
      ensures Valid()
      ensures carts == old(carts)[user := cart]
      ensures lastModified == old(lastModified)[user := now]
    {
      carts := carts[user := cart];
      lastModified := lastModified[user := now];
    }

    /** `remove_item`: true exactly when the product was in the cart. */
    method RemoveItem(user: string, productId: string, now: int) returns (removed: bool)
      requires Valid()
      modifies this
      ensures Valid()
      ensures removed == Contains(old(CartOf(user)), productId)
      ensures carts == old(carts)[user := Removed(old(CartOf(user)), productId)]
      ensures lastModified == if removed || user !in old(carts) then old(lastModified)[user := now]
                              else old(lastModified)
    {
      var cart := GetCart(user, now);
      removed := Contains(cart, productId);
      if removed {
        var i := IndexOf(cart, productId);
        var changed := cart[..i] + cart[i + 1..];
        assert changed == Removed(cart, productId);
        SetCart(user, changed, now);
      } else {
        assert Removed(cart, productId) == cart;
      }
    }

    /** `update_quantity`: true exactly when the product was in the cart. */
    method UpdateQuantity(user: string, productId: string, quantity: int, now: int)
      returns (updated: bool)
      requires Valid()
      modifies this
      ensures Valid()
      ensures updated == Contains(old(CartOf(user)), productId)
      ensures carts == old(carts)[user := Updated(old(CartOf(user)), productId, quantity)]
      ensures lastModified == if updated || user !in old(carts) then old(lastModified)[user := now]
                              else old(lastModified)
    {
      var cart := GetCart(user, now);
      ghost var target := Updated(cart, productId, quantity);
      updated := Contains(cart, productId);
      if updated {
        var i := IndexOf(cart, productId);
        var changed;
        if quantity > 0 {
          changed := cart[i := cart[i].(quantity := quantity)];
        } else {
          changed := cart[..i] + cart[i + 1..];
          assert target == Removed(cart, productId);
        }
        assert changed == target;
        SetCart(user, changed, now);
      } else {
        assert target == cart;
      }
    }

    method GetTotal(user: string, now: int) returns (total: Decimal)
      requires Valid()
      modifies this
      ensures Valid()
      ensures total == Total(old(CartOf(user)))
      ensures carts == old(carts)[user := old(CartOf(user))]
      ensures lastModified == if user in old(carts) then old(lastModified)
                              else old(lastModified)[user := now]
    {
      var cart := GetCart(user, now);
      total := Total(cart);
    }

    /** `clear_cart`: the user disappears from both maps; nothing happens for an unknown user. */
    method ClearCart(user: string)
      requires Valid()
      modifies this
      ensures Valid()
      ensures carts == old(carts) - {user}
      ensures lastModified == old(lastModified) - {user}
    {
      if user in carts {
        carts := carts - {user};
        lastModified := lastModified - {user};
      }
    }
  }
}
