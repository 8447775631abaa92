/** The cart façade of src/cart/cart.py: catalog-checked adds, removals and updates that fail
    when the item is absent, and the cart summary. The catalog is a function from product id to
    an optional product record. */
module Cart {
  import opened Wrappers
  import opened Decimals
  import opened CartStore

  /** A catalog record: what `get_product` returns when the product exists. */
  datatype Product = Product(name: string, price: Decimal, imageUrl: Option<string>)

  /** The `ValueError`s the façade raises, with their messages. */
  datatype CartError = ProductNotFound(productId: string) | ItemNotFound
  {
    function Message(): string
    {
      match this
      case ProductNotFound(p) => "Produto não encontrado: " + p
      case ItemNotFound => "Item não encontrado no carrinho"
    }
  }

  /** The reply of add/remove/update: a message and the new total as a decimal string. */
  datatype Reply = Reply(message: string, cartTotal: string)

  datatype Summary = Summary(items: seq<ItemDict>, total: string, itemCount: nat, totalQuantity: int)

  /** `[item.to_dict() for item in cart.values()]`. */
  function ItemsOf(c: CartItems): (r: seq<ItemDict>)
    ensures |r| == |c|
    ensures forall i :: 0 <= i < |c| ==> r[i] == ToDict(c[i])
  {
    seq(|c|, i requires 0 <= i < |c| => ToDict(c[i]))
  }

  /** Every dictionary of a summary reads back, through `from_dict`, as the cart item it came from. */
  lemma ItemsRoundTrip(c: CartItems)
    ensures forall i :: 0 <= i < |c| ==> FromDict(ItemsOf(c)[i]) == Some(c[i])
  {
    forall i | 0 <= i < |c|
      ensures FromDict(ItemsOf(c)[i]) == Some(c[i])
    {
      FromDictToDict(c[i]);
    }
  }

  /** `sum(item['quantity'] for item in items)`: never negative when no quantity is. */
  function QuantitySum(items: seq<ItemDict>): (r: int)
    ensures (forall i :: 0 <= i < |items| ==> items[i].quantity >= 0) ==> r >= 0
    ensures |items| == 1 ==> r == items[0].quantity
  {
    if items == [] then 0 else QuantitySum(items[..|items| - 1]) + items[|items| - 1].quantity
  }

  /** The sum of the quantities of the cart's items. */
  function CartQuantity(c: CartItems): int
  {
    if c == [] then 0 else CartQuantity(c[..|c| - 1]) + c[|c| - 1].quantity
  }

  /** `get_cart_summary` of a cart: one dictionary per item, in cart order, a total that reads
      back as exactly the cart's total, and the sum of the cart's quantities. */
  function SummaryOf(c: CartItems): (r: Summary)
    ensures |r.items| == r.itemCount == |c|
    ensures forall i :: 0 <= i < |c| ==> FromDict(r.items[i]) == Some(c[i])
    ensures Parse(r.total) == Some(Total(c))
    ensures r.totalQuantity == CartQuantity(c)
  {
    var items := ItemsOf(c);
    ItemsRoundTrip(c);
    ParseToString(Total(c));
    ItemsQuantity(c);
    Summary(items, ToString(Total(c)), |items|, QuantitySum(items))
  }

  /** The set of distinct product ids in a cart. */
  function IdSet(c: CartItems): set<string>
  {
    set i | 0 <= i < |c| :: c[i].productId
  }

  /** The summary's item count is the number of distinct products in the cart. */
  lemma SummaryMeaning(c: CartItems)
    requires UniqueIds(c)
    ensures SummaryOf(c).itemCount == |IdSet(c)|
  {
    DistinctIds(c);
  }

  lemma {:induction false} DistinctIds(c: CartItems)
    requires UniqueIds(c)
    ensures |IdSet(c)| == |c|
  {
    if c != [] {
      var init := c[..|c| - 1];
      var last := c[|c| - 1].productId;
      assert IdSet(c) == IdSet(init) + {last} by {
        forall p | p in IdSet(c) ensures p in IdSet(init) + {last} {
          var i :| 0 <= i < |c| && c[i].productId == p;
          if i < |c| - 1 {
            assert init[i] == c[i];
          }
        }
        forall p | p in IdSet(init) + {last} ensures p in IdSet(c) {
          if p != last {
            var i :| 0 <= i < |init| && init[i].productId == p;
            assert c[i] == init[i];
          }
        }
      }
      assert last !in IdSet(init) by {
        forall i | 0 <= i < |init| ensures init[i].productId != last {
          assert init[i] == c[i];
        }
      }
      DistinctIds(init);
    }
  }

  lemma {:induction false} ItemsQuantity(c: CartItems)
    ensures QuantitySum(ItemsOf(c)) == CartQuantity(c)
  {
    if c != [] {
      var items := ItemsOf(c);
      ItemsOfSnoc(c);
      ItemsQuantity(c[..|c| - 1]);
      assert items[..|items| - 1] == ItemsOf(c[..|c| - 1]);
    }
  }

  lemma ItemsOfSnoc(c: CartItems)
    requires c != []
    ensures ItemsOf(c) == ItemsOf(c[..|c| - 1]) + [ToDict(c[|c| - 1])]
  {
    var init := c[..|c| - 1];
    var whole, rhs := ItemsOf(c), ItemsOf(init) + [ToDict(c[|c| - 1])];
    forall i | 0 <= i < |c|
      ensures whole[i] == rhs[i]
    {
      if i < |init| {
        assert init[i] == c[i];
      }
    }
  }

  /** The item of the cart example: two units of a product priced 99.99. */
  const ExampleItem := CartItem("test-product-1", "Produto Teste", Decimal(9999, 2), 2,
                                Some("http://example.com/image.jpg"))

  /** Adding two units of a product priced 99.99 to an empty cart gives the total "199.98". */
  lemma AddedExampleTotal()
    ensures ToString(Total(Added([], ExampleItem))) == "199.98"
  {
    assert Added([], ExampleItem) == [ExampleItem];
    SingleTotal(ExampleItem);
    assert NatToDigits(19998) == "19998";
    TwoPlaces(19998, "19998");
  }

  /** The total of a one-item cart is its price times its quantity, at the price's scale. */
  lemma SingleTotal(item: CartItem)
    ensures Total([item]) == Decimal(item.price.coef * item.quantity, item.price.scale)
  {
    assert [item][..0] == [];
    var m := MulInt(item.price, item.quantity);
    assert Total([item]) == Add(Zero, m);
    assert Pow10(0) == 1;
  }

  /** Adding any item to an empty cart and removing it again leaves an empty cart, whose total
      reads "0". */
  lemma RemoveOnlyItemTotal(item: CartItem)
    ensures Removed(Added([], item), item.productId) == []
    ensures ToString(Total(Removed(Added([], item), item.productId))) == "0"
  {
    assert Added([], item) == [item];
    RemoveSingle(item);
    EmptyTotalText();
  }

  lemma RemoveSingle(item: CartItem)
    ensures Removed([item], item.productId) == []
  {
    assert [item][0].productId == item.productId;
    assert Contains([item], item.productId);
    assert IndexOf([item], item.productId) == 0;
  }

  /** The total of an empty cart is the integer 0, printed "0". */
  lemma EmptyTotalText()
    ensures ToString(Total([])) == "0"
  {
    assert Total([]) == Decimal(0, 0);
    assert NatToDigits(0) == "0";
    assert PadLeft("0", 1) == "0";
  }

  /** The text of a positive amount with two decimal places and at least three digits. */
  lemma TwoPlaces(coef: nat, digits: string)
    requires coef >= 100 && NatToDigits(coef) == digits
    ensures ToString(Decimal(coef, 2)) == digits[..|digits| - 2] + "." + digits[|digits| - 2..]
  {
    assert NatToDigits(coef / 10) == NatToDigits(coef / 100) + [DigitChar(coef / 10 % 10)];
    assert |digits| >= 3;
  }

  /** A cart holding two units of a product priced 10.00 summarises as one item, quantity 2,
      total "20.00". */
  lemma SummaryOfOneItem()
    ensures var c := Added([], CartItem("test-1", "Test Product", Decimal(1000, 2), 2, None));
            SummaryOf(c).total == "20.00" && SummaryOf(c).itemCount == 1 && SummaryOf(c).totalQuantity == 2
  {
    var item := CartItem("test-1", "Test Product", Decimal(1000, 2), 2, None);
    assert Added([], item) == [item];
    SingleSummary(item);
    SingleTotal(item);
    TwoPlacesOf2000();
  }

  /** The summary of a one-item cart: one entry, that item's quantity, that item's total. */
  lemma SingleSummary(item: CartItem)
    ensures SummaryOf([item]).itemCount == 1
    ensures SummaryOf([item]).totalQuantity == item.quantity
    ensures SummaryOf([item]).total == ToString(Total([item]))
  {
    var d := ToDict(item);
    assert ItemsOf([item]) == [d];
    assert [d][..0] == [];
    assert QuantitySum([d]) == QuantitySum([]) + d.quantity;
  }

  lemma TwoPlacesOf2000()
    ensures ToString(Decimal(2000, 2)) == "20.00"
  {
    assert NatToDigits(2000) == "2000";
    TwoPlaces(2000, "2000");
  }

  class ShoppingCart {
    const state: CartState

    ghost predicate Valid()
      reads this, state
    {
      state.Valid()
    }

    constructor ()
      ensures Valid() && fresh(state)
      ensures state.carts == map[] && state.lastModified == map[]
    {
      state := new CartState();
    }

    /** `add_to_cart`: fails without touching the store when the catalog has no such product;
        otherwise adds an item with the catalog's name, price and image and the given quantity,
        and replies with the new total. */
    method AddToCart(user: string, productId: string, quantity: int,
                     catalog: string -> Option<Product>, now: int)
      returns (r: Result<Reply, CartError>)
      requires Valid()
      modifies state
      ensures Valid()
      ensures catalog(productId).None? ==>
                && r == Err(ProductNotFound(productId))
                && state.carts == old(state.carts) && state.lastModified == old(state.lastModified)
      ensures catalog(productId).Some? ==>
                var p := catalog(productId).value;
                var item := CartItem(productId, p.name, p.price, quantity, p.imageUrl);
                && state.carts == old(state.carts)[user := Added(old(state.CartOf(user)), item)]
                && state.lastModified == old(state.lastModified)[user := now]
                && r == Ok(Reply("Adicionado " + IntToString(quantity) + "x " + p.name + " ao carrinho",
                                 ToString(Total(state.carts[user]))))
    {
      var product := catalog(productId);
      if product.None? {
        return Err(ProductNotFound(productId));
      }
      var p := product.value;
      var item := CartItem(productId, p.name, p.price, quantity, p.imageUrl);
      state.AddItem(user, item, now);
      var total := state.GetTotal(user, now);
      r := Ok(Reply("Adicionado " + IntToString(quantity) + "x " + p.name + " ao carrinho",
                    ToString(total)));
    }

    /** `remove_from_cart`: fails when the product is not in the cart (the lookup still creates an
        empty cart for an unknown user); otherwise replies with the total after removal. */
    method RemoveFromCart(user: string, productId: string, now: int)
      returns (r: Result<Reply, CartError>)
      requires Valid()
      modifies state
      ensures Valid()
      ensures r.Ok? <==> Contains(old(state.CartOf(user)), productId)
      ensures state.carts == old(state.carts)[user := Removed(old(state.CartOf(user)), productId)]
      ensures state.lastModified ==
                if r.Ok? || user !in old(state.carts) then old(state.lastModified)[user := now]
                else old(state.lastModified)
      ensures r.Ok? ==> r.value == Reply("Item removido do carrinho", ToString(Total(state.carts[user])))
      ensures r.Err? ==> r.error == ItemNotFound
    {
      var removed := state.RemoveItem(user, productId, now);
      if removed {
        var total := state.GetTotal(user, now);
        r := Ok(Reply("Item removido do carrinho", ToString(total)));
      } else {
        r := Err(ItemNotFound);
      }
    }

    /** `update_quantity`: fails when the product is not in the cart; otherwise replies with the
        total after the change. */
    method UpdateQuantity(user: string, productId: string, quantity: int, now: int)
      returns (r: Result<Reply, CartError>)
      requires Valid()
      modifies state
      ensures Valid()
      ensures r.Ok? <==> Contains(old(state.CartOf(user)), productId)
      ensures state.carts == old(state.carts)[user := Updated(old(state.CartOf(user)), productId, quantity)]
      ensures state.lastModified ==
                if r.Ok? || user !in old(state.carts) then old(state.lastModified)[user := now]
                else old(state.lastModified)
      ensures r.Ok? ==> r.value == Reply("Quantidade atualizada para " + IntToString(quantity),
                                         ToString(Total(state.carts[user])))
      ensures r.Err? ==> r.error == ItemNotFound
    {
      var updated := state.UpdateQuantity(user, productId, quantity, now);
      if updated {
        var total := state.GetTotal(user, now);
        r := Ok(Reply("Quantidade atualizada para " + IntToString(quantity), ToString(total)));
      } else {
        r := Err(ItemNotFound);
      }
    }

    /** `get_cart_items`: one dict per item, in cart order. */
    method GetCartItems(user: string, now: int) returns (items: seq<ItemDict>)
      requires Valid()
      modifies state
      ensures Valid()
      ensures items == ItemsOf(old(state.CartOf(user)))
      ensures state.carts == old(state.carts)[user := old(state.CartOf(user))]
      ensures state.lastModified == if user in old(state.carts) then old(state.lastModified)
                                    else old(state.lastModified)[user := now]
    {
      var cart := state.GetCart(user, now);
      items := ItemsOf(cart);
    }

    method GetCartSummary(user: string, now: int) returns (summary: Summary)
      requires Valid()
      modifies state
      ensures Valid()
      ensures summary == SummaryOf(old(state.CartOf(user)))
      ensures state.carts == old(state.carts)[user := old(state.CartOf(user))]
      ensures state.lastModified == if user in old(state.carts) then old(state.lastModified)
                                    else old(state.lastModified)[user := now]
    {
      var items := GetCartItems(user, now);
      var total := state.GetTotal(user, now);
      summary := Summary(items, ToString(total), |items|, QuantitySum(items));
    }

    /** `clear_cart`: afterwards the user's summary has no items and a total of "0". */
    method ClearCart(user: string) returns (message: string)
      requires Valid()
      modifies state
      ensures Valid()
      ensures state.carts == old(state.carts) - {user}
      ensures state.lastModified == old(state.lastModified) - {user}
      ensures state.CartOf(user) == [] && SummaryOf(state.CartOf(user)) == Summary([], "0", 0, 0)
      ensures message == "Carrinho limpo com sucesso"
    {
      state.ClearCart(user);
      message := "Carrinho limpo com sucesso";
    }
  }
}
