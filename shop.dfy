/**
 * The shopping cart's bookkeeping: a list of cart items, each a product's
 * fields together with a quantity, replaced as a whole by addToCart and
 * removeFromCart, and summed by getTotalPrice. Prices are integer cents.
 */
module Shop {
  import opened Wrappers

  datatype Product = Product(id: int, name: string, price: int)

  /** A product's fields spread into a cart line together with its quantity. */
  datatype CartItem = CartItem(id: int, name: string, price: int, quantity: int)

  type Cart = seq<CartItem>

  /** The line a product enters the cart as. */
  function NewItem(p: Product): CartItem
  {
    CartItem(p.id, p.name, p.price, 1)
  }

  predicate HasId(cart: Cart, id: int)
  {
    exists i :: 0 <= i < |cart| && cart[i].id == id
  }

  /** No two lines share an id. */
  predicate UniqueIds(cart: Cart)
  {
    forall i, j :: 0 <= i < j < |cart| ==> cart[i].id != cart[j].id
  }

  /** Array.prototype.find: the first line with the given id. */
  function Find(cart: Cart, id: int): (r: Option<CartItem>)
    ensures r.Some? <==> HasId(cart, id)
    ensures r.Some? ==> r.value.id == id && r.value in cart
    ensures r.Some? ==> exists k :: 0 <= k < |cart| && cart[k] == r.value && !HasId(cart[..k], id)
  {
    if |cart| == 0 then None
    else if cart[0].id == id then
      assert cart[..0] == [];
      Some(cart[0])
    else
      var rest := Find(cart[1..], id);
      assert forall i :: 0 < i < |cart| ==> cart[i] == cart[1..][i - 1];
      if rest.Some? then
        var k :| 0 <= k < |cart[1..]| && cart[1..][k] == rest.value && !HasId(cart[1..][..k], id);
        assert cart[..k + 1] == [cart[0]] + cart[1..][..k];
        Some(rest.value)
      else None
  }

  /** The `map` step of addToCart: every line with the id gets one more unit. */
  function IncrementQuantity(cart: Cart, id: int): (r: Cart)
    ensures |r| == |cart|
    ensures forall i :: 0 <= i < |cart| ==>
      r[i] == if cart[i].id == id then cart[i].(quantity := cart[i].quantity + 1) else cart[i]
  {
    if |cart| == 0 then []
    else
      var head := if cart[0].id == id then cart[0].(quantity := cart[0].quantity + 1) else cart[0];
      [head] + IncrementQuantity(cart[1..], id)
  }

  /** addToCart: one more unit of a product already in the cart, else a new line at the end. */
  function AddToCart(cart: Cart, p: Product): (r: Cart)
    ensures |r| == if HasId(cart, p.id) then |cart| else |cart| + 1
  {
    if Find(cart, p.id).Some? then IncrementQuantity(cart, p.id)
    else cart + [NewItem(p)]
  }

  /** How many lines carry the id. */
  function CountId(cart: Cart, id: int): (n: nat)
    ensures n <= |cart|
    ensures n == 0 <==> !HasId(cart, id)
  {
    if |cart| == 0 then 0
    else
      assert forall i :: 0 < i < |cart| ==> cart[i] == cart[1..][i - 1];
      (if cart[0].id == id then 1 else 0) + CountId(cart[1..], id)
  }

  /** a is b with some elements left out, the rest in their original order. */
  predicate IsSubsequence(a: Cart, b: Cart)
  {
    if |a| == 0 then true
    else if |b| == 0 then false
    else if a[0] == b[0] then IsSubsequence(a[1..], b[1..])
    else IsSubsequence(a, b[1..])
  }

  /**
   * removeFromCart: the lines without the id, in their original order (a
   * subsequence that drops exactly the lines with the id).
   */
  function RemoveFromCart(cart: Cart, id: int): (r: Cart)
    ensures !HasId(r, id)
    ensures IsSubsequence(r, cart)
    ensures |r| == |cart| - CountId(cart, id)
    ensures forall x :: x in cart && x.id != id ==> x in r
    ensures forall x :: x in r ==> x in cart
    ensures !HasId(cart, id) ==> r == cart
  {
    if |cart| == 0 then []
    else
      var rest := RemoveFromCart(cart[1..], id);
      assert forall i :: 0 < i < |cart| ==> cart[i] == cart[1..][i - 1];
      if cart[0].id == id then
        SubsequenceOfTail(rest, cart);
        rest
      else
        var r := [cart[0]] + rest;
        assert r[1..] == rest;
        assert forall i :: 0 < i < |r| ==> r[i] == rest[i - 1];
        r
  }

  /** A subsequence of b's tail is a subsequence of b. */
  lemma {:induction false} SubsequenceOfTail(a: Cart, b: Cart)
    requires |b| > 0 && IsSubsequence(a, b[1..])
    ensures IsSubsequence(a, b)
    decreases |a| + |b|
  {
    if |a| > 0 && a[0] == b[0] {
      DropHead(a, b[1..]);
    }
  }

  /** Leaving out a's first element keeps a subsequence. */
  lemma {:induction false} DropHead(a: Cart, c: Cart)
    requires |a| > 0 && IsSubsequence(a, c)
    ensures IsSubsequence(a[1..], c)
    decreases |a| + |c|
  {
    if a[0] == c[0] {
      SubsequenceOfTail(a[1..], c);
    } else {
      DropHead(a, c[1..]);
      SubsequenceOfTail(a[1..], c);
    }
  }

  /** price * quantity of one line. */
  function LineTotal(item: CartItem): int
  {
    item.price * item.quantity
  }

  /** Reference sum of price * quantity over the cart. */
  function Subtotal(cart: Cart): (s: int)
    ensures |cart| == 0 ==> s == 0
  {
    if |cart| == 0 then 0 else LineTotal(cart[0]) + Subtotal(cart[1..])
  }

  /** The reduce of getTotalPrice: left to right, starting from an accumulator. */
  function Accumulate(acc: int, cart: Cart): int
    decreases |cart|
  {
    if |cart| == 0 then acc else Accumulate(acc + LineTotal(cart[0]), cart[1..])
  }

  /** getTotalPrice: the reduce from 0. */
  function TotalPrice(cart: Cart): (total: int)
    ensures total == Subtotal(cart)
    ensures |cart| == 0 ==> total == 0
  {
    AccumulateIsSum(0, cart);
    Accumulate(0, cart)
  }

  lemma {:induction false} AccumulateIsSum(acc: int, cart: Cart)
    ensures Accumulate(acc, cart) == acc + Subtotal(cart)
    decreases |cart|
  {
    if |cart| > 0 {
      AccumulateIsSum(acc + LineTotal(cart[0]), cart[1..]);
    }
  }

  lemma {:induction false} SubtotalAppend(a: Cart, b: Cart)
    ensures Subtotal(a + b) == Subtotal(a) + Subtotal(b)
  {
    if |a| == 0 {
      assert a + b == b;
    } else {
      assert (a + b)[1..] == a[1..] + b;
      SubtotalAppend(a[1..], b);
    }
  }

  /** Adding a product not yet in the cart appends its line with quantity 1 and keeps the rest. */
  lemma AddNewAppends(cart: Cart, p: Product)
    requires !HasId(cart, p.id)
    ensures AddToCart(cart, p) == cart + [CartItem(p.id, p.name, p.price, 1)]
    ensures AddToCart(cart, p)[..|cart|] == cart
  {
    assert (cart + [NewItem(p)])[..|cart|] == cart;
  }

  /**
   * Adding a product already in the cart (at line k, ids unique) adds one to
   * that line's quantity and changes nothing else.
   */
  lemma AddExistingIncrements(cart: Cart, p: Product, k: int)
    requires UniqueIds(cart) && 0 <= k < |cart| && cart[k].id == p.id
    ensures |AddToCart(cart, p)| == |cart|
    ensures AddToCart(cart, p)[k] == cart[k].(quantity := cart[k].quantity + 1)
    ensures forall i :: 0 <= i < |cart| && i != k ==> AddToCart(cart, p)[i] == cart[i]
  {
    assert HasId(cart, p.id);
  }

  /** IncrementQuantity keeps the ids, line by line. */
  lemma SameIds(cart: Cart, id: int)
    ensures forall i :: 0 <= i < |cart| ==> IncrementQuantity(cart, id)[i].id == cart[i].id
  {
  }

  /** Adding keeps the ids pairwise distinct. */
  lemma AddKeepsUniqueIds(cart: Cart, p: Product)
    requires UniqueIds(cart)
    ensures UniqueIds(AddToCart(cart, p))
  {
    if HasId(cart, p.id) {
      SameIds(cart, p.id);
    } else {
      var r := cart + [NewItem(p)];
      assert forall i :: 0 <= i < |cart| ==> r[i] == cart[i];
    }
  }

  /** Removing keeps the ids pairwise distinct. */
  lemma {:induction false} RemoveKeepsUniqueIds(cart: Cart, id: int)
    requires UniqueIds(cart)
    ensures UniqueIds(RemoveFromCart(cart, id))
  {
    if |cart| > 0 {
      var tail := cart[1..];
      assert forall i :: 0 < i < |cart| ==> cart[i] == tail[i - 1];
      assert UniqueIds(tail);
      RemoveKeepsUniqueIds(tail, id);
      if cart[0].id != id {
        var rest := RemoveFromCart(tail, id);
        var r := [cart[0]] + rest;
        assert !HasId(tail, cart[0].id);
        assert forall j :: 0 <= j < |rest| ==> rest[j] in tail;
        assert forall j :: 0 < j < |r| ==> r[j] == rest[j - 1];
      }
    }
  }

  /** A cart operation the shop page offers. */
  datatype CartAction = Add(product: Product) | Remove(id: int)

  function Apply(cart: Cart, action: CartAction): Cart
  {
    match action
    case Add(p) => AddToCart(cart, p)
    case Remove(id) => RemoveFromCart(cart, id)
  }

  /** The cart after a sequence of actions, starting from a given cart. */
  function Replay(cart: Cart, actions: seq<CartAction>): Cart
    decreases |actions|
  {
    if |actions| == 0 then cart else Replay(Apply(cart, actions[0]), actions[1..])
  }

  /** Ids stay pairwise distinct under any sequence of adds and removes. */
  lemma {:induction false} ReplayKeepsUniqueIds(cart: Cart, actions: seq<CartAction>)
    requires UniqueIds(cart)
    ensures UniqueIds(Replay(cart, actions))
    decreases |actions|
  {
    if |actions| > 0 {
      match actions[0] {
        case Add(p) => AddKeepsUniqueIds(cart, p);
        case Remove(id) => RemoveKeepsUniqueIds(cart, id);
      }
      ReplayKeepsUniqueIds(Apply(cart, actions[0]), actions[1..]);
    }
  }

  /** Starting from the empty cart, every reachable cart has distinct ids. */
  lemma ReachableCartsHaveUniqueIds(actions: seq<CartAction>)
    ensures UniqueIds(Replay([], actions))
  {
    ReplayKeepsUniqueIds([], actions);
  }

  /**
   * Adding p raises the total by one unit's price: p's price for a new line,
   * the existing line's recorded price otherwise.
   */
  lemma {:induction false} AddToCartTotal(cart: Cart, p: Product)
    requires UniqueIds(cart)
    ensures TotalPrice(AddToCart(cart, p)) ==
      TotalPrice(cart) + (match Find(cart, p.id) case Some(item) => item.price case None => p.price)
  {
    if Find(cart, p.id).Some? {
      IncrementTotal(cart, p.id);
    } else {
      SubtotalAppend(cart, [NewItem(p)]);
    }
  }

  /** With distinct ids, incrementing the line with the id adds its price to the total. */
  lemma {:induction false} IncrementTotal(cart: Cart, id: int)
    requires UniqueIds(cart) && HasId(cart, id)
    ensures Subtotal(IncrementQuantity(cart, id)) == Subtotal(cart) + Find(cart, id).value.price
  {
    var tail := cart[1..];
    assert forall i :: 0 < i < |cart| ==> cart[i] == tail[i - 1];
    assert IncrementQuantity(cart, id)[1..] == IncrementQuantity(tail, id);
    if cart[0].id == id {
      assert !HasId(tail, id);
      UnchangedWithoutId(tail, id);
    } else {
      assert UniqueIds(tail);
      IncrementTotal(tail, id);
    }
  }

  /** Incrementing an id no line carries changes nothing. */
  lemma UnchangedWithoutId(cart: Cart, id: int)
    requires !HasId(cart, id)
    ensures IncrementQuantity(cart, id) == cart
  {
  }

  /** When every line's recorded price is the catalogue price, adding p raises the total by p's price. */
  lemma AddToCartTotalCatalogue(cart: Cart, p: Product)
    requires UniqueIds(cart)
    requires forall i :: 0 <= i < |cart| && cart[i].id == p.id ==> cart[i].price == p.price
    ensures TotalPrice(AddToCart(cart, p)) == TotalPrice(cart) + p.price
  {
    AddToCartTotal(cart, p);
  }

  /** Every line records the catalogue price of its id. */
  predicate PricesMatch(cart: Cart, price: int -> int)
  {
    forall i :: 0 <= i < |cart| ==> cart[i].price == price(cart[i].id)
  }

  /** Every product the actions add is the catalogue's entry for its id. */
  predicate FromCatalogue(actions: seq<CartAction>, price: int -> int)
  {
    forall i :: 0 <= i < |actions| && actions[i].Add? ==>
      actions[i].product.price == price(actions[i].product.id)
  }

  /** Adding a catalogue product keeps every recorded price the catalogue's. */
  lemma AddKeepsPricesMatch(cart: Cart, p: Product, price: int -> int)
    requires PricesMatch(cart, price) && p.price == price(p.id)
    ensures PricesMatch(AddToCart(cart, p), price)
  {
    if !HasId(cart, p.id) {
      var r := cart + [NewItem(p)];
      assert forall i :: 0 <= i < |cart| ==> r[i] == cart[i];
    }
  }

  /** Removing keeps every recorded price the catalogue's. */
  lemma RemoveKeepsPricesMatch(cart: Cart, id: int, price: int -> int)
    requires PricesMatch(cart, price)
    ensures PricesMatch(RemoveFromCart(cart, id), price)
  {
    var r := RemoveFromCart(cart, id);
    forall i | 0 <= i < |r| ensures r[i].price == price(r[i].id) {
      assert r[i] in cart;
    }
  }

  /** Recorded prices stay the catalogue's under any sequence of catalogue adds and removes. */
  lemma {:induction false} ReplayKeepsPricesMatch(cart: Cart, actions: seq<CartAction>, price: int -> int)
    requires PricesMatch(cart, price) && FromCatalogue(actions, price)
    ensures PricesMatch(Replay(cart, actions), price)
    decreases |actions|
  {
    if |actions| > 0 {
      match actions[0] {
        case Add(p) => AddKeepsPricesMatch(cart, p, price);
        case Remove(id) => RemoveKeepsPricesMatch(cart, id, price);
      }
      assert forall i :: 0 < i < |actions| ==> actions[1..][i - 1] == actions[i];
      ReplayKeepsPricesMatch(Apply(cart, actions[0]), actions[1..], price);
    }
  }

  /**
   * For every cart the page can build from the empty cart by adding catalogue
   * products and removing lines, adding one more catalogue product raises the
   * total by exactly its price.
   */
  lemma ReachableAddTotal(actions: seq<CartAction>, p: Product, price: int -> int)
    requires FromCatalogue(actions, price) && p.price == price(p.id)
    ensures TotalPrice(AddToCart(Replay([], actions), p)) == TotalPrice(Replay([], actions)) + p.price
  {
    var c := Replay([], actions);
    ReplayKeepsUniqueIds([], actions);
    ReplayKeepsPricesMatch([], actions, price);
    AddToCartTotalCatalogue(c, p);
  }

  /**
   * Removing an id lowers the total by price * quantity of the line that had
   * it (ids distinct), and leaves it unchanged when no line has it.
   */
  lemma {:induction false} RemoveFromCartTotal(cart: Cart, id: int)
    requires UniqueIds(cart)
    ensures TotalPrice(RemoveFromCart(cart, id)) ==
      TotalPrice(cart) - (match Find(cart, id) case Some(item) => LineTotal(item) case None => 0)
  {
    if |cart| > 0 {
      var tail := cart[1..];
      assert forall i :: 0 < i < |cart| ==> cart[i] == tail[i - 1];
      assert UniqueIds(tail);
      if cart[0].id == id {
        assert !HasId(tail, id);
      } else {
        RemoveFromCartTotal(tail, id);
      }
    }
  }

  /** Scenario: two adds of one product and one of another, then removing the first. */
  lemma CartScenario()
    ensures var a := Product(1, "Headphones", 19999);
            var b := Product(3, "Speaker", 8999);
            var c := Replay([], [Add(a), Add(b), Add(a)]);
            c == [CartItem(1, "Headphones", 19999, 2), CartItem(3, "Speaker", 8999, 1)]
            && TotalPrice(c) == 48997
            && RemoveFromCart(c, 1) == [CartItem(3, "Speaker", 8999, 1)]
  {
    var a := Product(1, "Headphones", 19999);
    var b := Product(3, "Speaker", 8999);
    var c1 := AddToCart([], a);
    AddNewAppends([], a);
    assert c1 == [NewItem(a)];
    var c2 := AddToCart(c1, b);
    assert !HasId(c1, b.id);
    AddNewAppends(c1, b);
    assert c2 == [NewItem(a), NewItem(b)];
    var c3 := AddToCart(c2, a);
    AddExistingIncrements(c2, a, 0);
    assert c3 == [CartItem(1, "Headphones", 19999, 2), NewItem(b)];
    assert Replay([], [Add(a), Add(b), Add(a)]) == c3 by {
      assert [Add(a), Add(b), Add(a)][1..] == [Add(b), Add(a)];
      assert [Add(b), Add(a)][1..] == [Add(a)];
      assert [Add(a)][1..] == [];
      assert Replay(c3, []) == c3;
      assert Replay(c2, [Add(a)]) == c3;
      assert Replay(c1, [Add(b), Add(a)]) == c3;
    }
    assert Subtotal(c3) == 48997 by {
      assert c3[1..] == [NewItem(b)];
      assert c3[1..][1..] == [];
    }
    var r := RemoveFromCart(c3, 1);
    assert c3[1..] == [NewItem(b)];
    assert RemoveFromCart([NewItem(b)], 1) == [NewItem(b)] by {
      assert !HasId([NewItem(b)], 1);
    }
  }
}
