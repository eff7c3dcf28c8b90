/** The order-creation page (src/app/tao-don-hang/page.tsx): the cart of
    product lines, its total, the category list and filter, and the order
    request the page submits. Cart updates are pure functions from the
    previous cart to the next, as the page's state setters are; the page's
    own state is a class whose handlers apply them. */
module OrderPage {
  import opened Wrappers
  import opened Text
  import opened Api

  /** `CartItem`: a product together with how many of it are ordered. */
  datatype CartItem = CartItem(product: Product, quantity: int)

  /** No two lines are for the same product. */
  ghost predicate UniqueIds(cart: seq<CartItem>) {
    forall i, j :: 0 <= i < j < |cart| ==> cart[i].product.productId != cart[j].product.productId
  }

  /** The cart invariant: one line per product id, every quantity at least 1. */
  ghost predicate ValidCart(cart: seq<CartItem>) {
    UniqueIds(cart) && forall i :: 0 <= i < |cart| ==> cart[i].quantity >= 1
  }

  // ---- Looking a product up ---------------------------------------------

  /** `orderItems.find(item => item.productId === productId)`, as an index:
      the first line for the product, or none when no line has it. */
  function FindLine(cart: seq<CartItem>, productId: int): (r: Option<nat>)
    ensures r.Some? ==> r.value < |cart| && cart[r.value].product.productId == productId
    ensures r.Some? ==> forall k :: 0 <= k < r.value ==> cart[k].product.productId != productId
    ensures r.None? <==> forall k :: 0 <= k < |cart| ==> cart[k].product.productId != productId
  {
    if cart == [] then None
    else if cart[0].product.productId == productId then Some(0)
    else match FindLine(cart[1..], productId)
      case None => None
      case Some(k) => Some(k + 1)
  }

  /** `getProductQuantity`: the quantity on the product's line, 0 without one. */
  function GetProductQuantity(cart: seq<CartItem>, productId: int): (q: int)
    ensures (forall k :: 0 <= k < |cart| ==> cart[k].product.productId != productId) ==> q == 0
    ensures ValidCart(cart) ==> q >= 0
    ensures ValidCart(cart) && q > 0 ==> exists k :: 0 <= k < |cart| && cart[k] == CartItem(cart[k].product, q) && cart[k].product.productId == productId
  {
    match FindLine(cart, productId)
    case None => 0
    case Some(i) => assert cart[i] == CartItem(cart[i].product, cart[i].quantity); cart[i].quantity
  }

  /** In a cart without duplicate ids, a line's own quantity is what
      `getProductQuantity` reports for its product. */
  lemma QuantityOfLine(cart: seq<CartItem>, line: CartItem)
    requires UniqueIds(cart) && line in cart
    ensures GetProductQuantity(cart, line.product.productId) == line.quantity
  {
    var i :| 0 <= i < |cart| && cart[i] == line;
    var r := FindLine(cart, line.product.productId);
    assert r.Some? && r.value == i;
  }

  // ---- Updating the cart ------------------------------------------------

  /** The `prev.map(...)` step of `addToOrder`: `productId`'s line gets one
      more; every other line is kept. */
  function Incremented(cart: seq<CartItem>, productId: int): (r: seq<CartItem>)
    ensures |r| == |cart|
    ensures forall i :: 0 <= i < |cart| ==> r[i].product == cart[i].product
    ensures forall i :: 0 <= i < |cart| ==>
              r[i].quantity == cart[i].quantity + if cart[i].product.productId == productId then 1 else 0
  {
    seq(|cart|, i requires 0 <= i < |cart| =>
      if cart[i].product.productId == productId then CartItem(cart[i].product, cart[i].quantity + 1) else cart[i])
  }

  /** The `prev.map(...)` step of `removeFromOrder`: `productId`'s line gets
      one fewer, floored at 0; every other line is kept. */
  function Decremented(cart: seq<CartItem>, productId: int): (r: seq<CartItem>)
    ensures |r| == |cart|
    ensures forall i :: 0 <= i < |cart| ==> r[i].product == cart[i].product
    ensures forall i :: 0 <= i < |cart| && cart[i].product.productId != productId ==> r[i] == cart[i]
    ensures forall i :: 0 <= i < |cart| && cart[i].product.productId == productId ==>
              r[i].quantity == if cart[i].quantity - 1 > 0 then cart[i].quantity - 1 else 0
  {
    seq(|cart|, i requires 0 <= i < |cart| =>
      if cart[i].product.productId == productId
      then CartItem(cart[i].product, if cart[i].quantity - 1 > 0 then cart[i].quantity - 1 else 0)
      else cart[i])
  }

  /** `filter(item => item.quantity > 0)`: exactly the lines with a positive
      quantity, in their order. */
  function Positive(cart: seq<CartItem>): (r: seq<CartItem>)
    ensures IsSubsequence(r, cart)
    ensures forall line :: line in r <==> line in cart && line.quantity > 0
  {
    if cart == [] then []
    else if cart[0].quantity > 0 then [cart[0]] + Positive(cart[1..])
    else Positive(cart[1..])
  }

  /** A cart whose every quantity is positive survives the filter whole. */
  lemma {:induction false} PositiveKeepsAll(cart: seq<CartItem>)
    requires forall i :: 0 <= i < |cart| ==> cart[i].quantity > 0
    ensures Positive(cart) == cart
  {
    if cart != [] {
      PositiveKeepsAll(cart[1..]);
    }
  }

  lemma {:induction false} PositiveAppend(a: seq<CartItem>, b: seq<CartItem>)
    ensures Positive(a + b) == Positive(a) + Positive(b)
  {
    if a == [] {
      assert a + b == b;
    } else {
      var ab := a + b;
      assert ab[0] == a[0] && ab[1..] == a[1..] + b;
      PositiveAppend(a[1..], b);
    }
  }

  /** The filter keeps a cart free of duplicate ids. */
  lemma {:induction false} PositiveUniqueIds(cart: seq<CartItem>)
    requires UniqueIds(cart)
    ensures UniqueIds(Positive(cart))
  {
    if cart != [] {
      var tail := cart[1..];
      assert UniqueIds(tail) by {
        forall i, j | 0 <= i < j < |tail|
          ensures tail[i].product.productId != tail[j].product.productId
        {
          assert tail[i] == cart[i + 1] && tail[j] == cart[j + 1];
        }
      }
      PositiveUniqueIds(tail);
      var rest := Positive(tail);
      if cart[0].quantity > 0 {
        forall line | line in rest
          ensures line.product.productId != cart[0].product.productId
        {
          var k :| 0 <= k < |tail| && tail[k] == line;
          assert cart[k + 1] == line;
        }
        ConsUniqueIds(cart[0], rest);
      }
    }
  }

  /** A line whose id no other line has can go in front of a cart without
      duplicates. */
  lemma ConsUniqueIds(line: CartItem, rest: seq<CartItem>)
    requires UniqueIds(rest)
    requires forall other :: other in rest ==> other.product.productId != line.product.productId
    ensures UniqueIds([line] + rest)
  {
    var r := [line] + rest;
    forall i, j | 0 <= i < j < |r|
      ensures r[i].product.productId != r[j].product.productId
    {
      assert r[j] == rest[j - 1];
      if i > 0 {
        assert r[i] == rest[i - 1];
      }
    }
  }

  /** `addToOrder(product)`: a product already in the cart gets one more on
      its line, which keeps the fields it was added with; a new product gets
      a line of 1 at the end. Every other line stays as it was. */
  function AddToOrder(cart: seq<CartItem>, product: Product): (r: seq<CartItem>)
    ensures FindLine(cart, product.productId).Some? ==>
              && |r| == |cart|
              && (forall i :: 0 <= i < |cart| ==> r[i].product == cart[i].product)
              && (forall i :: 0 <= i < |cart| ==>
                    r[i].quantity == cart[i].quantity + if cart[i].product.productId == product.productId then 1 else 0)
    ensures FindLine(cart, product.productId).None? ==> r == cart + [CartItem(product, 1)]
  {
    if FindLine(cart, product.productId).Some? then Incremented(cart, product.productId)
    else cart + [CartItem(product, 1)]
  }

  /** `removeFromOrder(productId)`: one fewer on the product's line, and
      lines that reach 0 are dropped; what is left keeps its order. */
  function RemoveFromOrder(cart: seq<CartItem>, productId: int): (r: seq<CartItem>)
    ensures IsSubsequence(r, Decremented(cart, productId))
    ensures forall i :: 0 <= i < |r| ==> r[i].quantity > 0
    ensures forall line :: line in r <==> line in Decremented(cart, productId) && line.quantity > 0
  {
    var r := Positive(Decremented(cart, productId));
    assert forall i :: 0 <= i < |r| ==> r[i] in r;
    r
  }

  /** Adding keeps the cart invariant, raises the product's quantity by one
      and leaves every other product's quantity alone. */
  lemma AddToOrderProperties(cart: seq<CartItem>, product: Product, other: int)
    requires ValidCart(cart)
    ensures ValidCart(AddToOrder(cart, product))
    ensures GetProductQuantity(AddToOrder(cart, product), product.productId)
            == GetProductQuantity(cart, product.productId) + 1
    ensures other != product.productId ==>
              GetProductQuantity(AddToOrder(cart, product), other) == GetProductQuantity(cart, other)
  {
    if FindLine(cart, product.productId).Some? {
      AddToExistingLine(cart, product, other);
    } else {
      AddNewLine(cart, product, other);
    }
  }

  lemma AddToExistingLine(cart: seq<CartItem>, product: Product, other: int)
    requires ValidCart(cart) && FindLine(cart, product.productId).Some?
    ensures ValidCart(AddToOrder(cart, product))
    ensures GetProductQuantity(AddToOrder(cart, product), product.productId)
            == GetProductQuantity(cart, product.productId) + 1
    ensures other != product.productId ==>
              GetProductQuantity(AddToOrder(cart, product), other) == GetProductQuantity(cart, other)
  {
    var r := AddToOrder(cart, product);
    var i := FindLine(cart, product.productId).value;
    assert UniqueIds(r);
    assert r[i] == CartItem(cart[i].product, cart[i].quantity + 1);
    QuantityOfLine(cart, cart[i]);
    QuantityOfLine(r, r[i]);
    if other != product.productId {
      assert forall k :: 0 <= k < |cart| && cart[k].product.productId == other ==> r[k] == cart[k];
      SameQuantityElsewhere(cart, r, other);
    }
  }

  lemma AddNewLine(cart: seq<CartItem>, product: Product, other: int)
    requires ValidCart(cart) && FindLine(cart, product.productId).None?
    ensures ValidCart(AddToOrder(cart, product))
    ensures GetProductQuantity(AddToOrder(cart, product), product.productId)
            == GetProductQuantity(cart, product.productId) + 1
    ensures other != product.productId ==>
              GetProductQuantity(AddToOrder(cart, product), other) == GetProductQuantity(cart, other)
  {
    var r := AddToOrder(cart, product);
    assert r[|cart|] in r;
    QuantityOfLine(r, r[|cart|]);
    if other != product.productId {
      SameQuantityElsewhere(cart, r, other);
    }
  }

  /** A cart that keeps the lines of `other` unchanged at their places, and
      adds none for it, reports the same quantity for `other`. */
  lemma SameQuantityElsewhere(cart: seq<CartItem>, r: seq<CartItem>, other: int)
    requires UniqueIds(cart) && UniqueIds(r) && |cart| <= |r|
    requires forall i :: 0 <= i < |cart| && cart[i].product.productId == other ==> r[i] == cart[i]
    requires forall i :: 0 <= i < |cart| && cart[i].product.productId != other ==> r[i].product.productId != other
    requires forall i :: |cart| <= i < |r| ==> r[i].product.productId != other
    ensures GetProductQuantity(r, other) == GetProductQuantity(cart, other)
  {
    match FindLine(cart, other)
    case Some(i) =>
      QuantityOfLine(cart, cart[i]);
      assert r[i] in r;
      QuantityOfLine(r, r[i]);
    case None =>
  }

  /** Removing keeps the cart invariant, lowers the product's quantity by one
      (not below zero) and leaves every other product's quantity alone. */
  lemma RemoveFromOrderProperties(cart: seq<CartItem>, productId: int, other: int)
    requires ValidCart(cart)
    ensures ValidCart(RemoveFromOrder(cart, productId))
    ensures GetProductQuantity(RemoveFromOrder(cart, productId), productId)
            == if GetProductQuantity(cart, productId) > 0 then GetProductQuantity(cart, productId) - 1 else 0
    ensures other != productId ==>
              GetProductQuantity(RemoveFromOrder(cart, productId), other) == GetProductQuantity(cart, other)
  {
    RemoveFromOrderValid(cart, productId);
    RemovedQuantity(cart, productId, productId);
    if other != productId {
      RemovedQuantity(cart, productId, other);
    }
  }

  /** The quantity of one product `id` after removing one of `productId`. */
  lemma RemovedQuantity(cart: seq<CartItem>, productId: int, id: int)
    requires ValidCart(cart)
    ensures var q := GetProductQuantity(cart, id);
            GetProductQuantity(RemoveFromOrder(cart, productId), id)
            == if id != productId then q else if q > 0 then q - 1 else 0
  {
    var b := Decremented(cart, productId);
    var r := RemoveFromOrder(cart, productId);
    RemoveFromOrderValid(cart, productId);
    DecrementedUniqueIds(cart, productId);
    QuantityAfterFilter(cart, b, r, id);
    match FindLine(cart, id)
    case Some(i) =>
      QuantityOfLine(cart, cart[i]);
    case None =>
  }

  /** Removing keeps the cart invariant. */
  lemma RemoveFromOrderValid(cart: seq<CartItem>, productId: int)
    requires ValidCart(cart)
    ensures ValidCart(RemoveFromOrder(cart, productId))
  {
    DecrementedUniqueIds(cart, productId);
    PositiveUniqueIds(Decremented(cart, productId));
  }

  /** Decrementing changes no line's product, so ids stay unique. */
  lemma DecrementedUniqueIds(cart: seq<CartItem>, productId: int)
    requires UniqueIds(cart)
    ensures UniqueIds(Decremented(cart, productId))
  {
  }

  /** How `getProductQuantity` on the filtered cart follows from the line
      for `id` in the decremented one. */
  lemma QuantityAfterFilter(cart: seq<CartItem>, b: seq<CartItem>, r: seq<CartItem>, id: int)
    requires ValidCart(cart) && UniqueIds(b) && UniqueIds(r)
    requires |b| == |cart| && forall i :: 0 <= i < |cart| ==> b[i].product == cart[i].product
    requires forall line :: line in r <==> line in b && line.quantity > 0
    requires forall i :: 0 <= i < |cart| ==> b[i].quantity == cart[i].quantity || b[i].quantity == cart[i].quantity - 1
    ensures forall i :: 0 <= i < |cart| && cart[i].product.productId == id ==> GetProductQuantity(r, id) == b[i].quantity
    ensures FindLine(cart, id).None? ==> GetProductQuantity(r, id) == 0
  {
    forall i | 0 <= i < |cart| && cart[i].product.productId == id
      ensures GetProductQuantity(r, id) == b[i].quantity
    {
      if b[i].quantity > 0 {
        assert b[i] in b;
        QuantityOfLine(r, b[i]);
      } else {
        forall k | 0 <= k < |r|
          ensures r[k].product.productId != id
        {
          assert r[k] in r;
          var m :| 0 <= m < |b| && b[m] == r[k];
          assert m != i;
        }
      }
    }
    if FindLine(cart, id).None? {
      forall k | 0 <= k < |r|
        ensures r[k].product.productId != id
      {
        assert r[k] in r;
        var m :| 0 <= m < |b| && b[m] == r[k];
      }
    }
  }

  /** Under the cart invariant, taking one of a product away right after
      adding one restores the cart exactly. */
  lemma RemoveAfterAdd(cart: seq<CartItem>, product: Product)
    requires ValidCart(cart)
    ensures RemoveFromOrder(AddToOrder(cart, product), product.productId) == cart
  {
    var id := product.productId;
    var added := AddToOrder(cart, product);
    if FindLine(cart, id).Some? {
      var b := Decremented(added, id);
      assert b == cart by {
        forall i | 0 <= i < |cart|
          ensures b[i] == cart[i]
        {
          if cart[i].product.productId == id {
            assert b[i] == CartItem(cart[i].product, cart[i].quantity);
          }
        }
      }
      PositiveKeepsAll(cart);
    } else {
      var b := Decremented(added, id);
      assert b == cart + [CartItem(product, 0)];
      PositiveAppend(cart, [CartItem(product, 0)]);
      PositiveKeepsAll(cart);
    }
  }

  // ---- Totals -----------------------------------------------------------

  /** `calculateTotal`: the sum of price times quantity over the lines. */
  function CalculateTotal(cart: seq<CartItem>): (total: int)
    ensures cart == [] ==> total == 0
    ensures (forall i :: 0 <= i < |cart| ==> cart[i].product.price >= 0 && cart[i].quantity >= 0) ==> total >= 0
  {
    if cart == [] then 0
    else LineTotal(cart[0]) + CalculateTotal(cart[1..])
  }

  /** What one line adds to the total. */
  function LineTotal(line: CartItem): int {
    line.product.price * line.quantity
  }

  lemma {:induction false} TotalAppend(a: seq<CartItem>, b: seq<CartItem>)
    ensures CalculateTotal(a + b) == CalculateTotal(a) + CalculateTotal(b)
  {
    if a == [] {
      assert a + b == b;
    } else {
      var ab := a + b;
      assert ab[0] == a[0] && ab[1..] == a[1..] + b;
      TotalAppend(a[1..], b);
    }
  }

  /** The unit price of the product's line, or 0 without one. */
  function LinePrice(cart: seq<CartItem>, productId: int): int {
    match FindLine(cart, productId)
    case None => 0
    case Some(i) => cart[i].product.price
  }

  /** `LinePrice` on a cart by its first line and the rest. */
  lemma LinePriceCons(cart: seq<CartItem>, productId: int)
    requires UniqueIds(cart) && cart != []
    ensures LinePrice(cart, productId)
            == if cart[0].product.productId == productId then cart[0].product.price else LinePrice(cart[1..], productId)
  {
    if cart[0].product.productId != productId {
      match FindLine(cart[1..], productId)
      case None =>
      case Some(k) => assert cart[1..][k] == cart[k + 1];
    }
  }

  /** Without its first line a cart keeps one line per id. */
  lemma UniqueTail(cart: seq<CartItem>)
    requires UniqueIds(cart) && cart != []
    ensures UniqueIds(cart[1..])
    ensures forall k :: 0 <= k < |cart| - 1 ==> cart[1..][k].product.productId != cart[0].product.productId
  {
    var tail := cart[1..];
    forall i, j | 0 <= i < j < |tail|
      ensures tail[i].product.productId != tail[j].product.productId
    {
      assert tail[i] == cart[i + 1] && tail[j] == cart[j + 1];
    }
    forall k | 0 <= k < |tail|
      ensures tail[k].product.productId != cart[0].product.productId
    {
      assert tail[k] == cart[k + 1];
    }
  }

  /** Changing a line's quantity by `d` changes what it adds by `d` times
      its price. */
  lemma LineTotalShift(line: CartItem, d: int)
    ensures LineTotal(CartItem(line.product, line.quantity + d)) == LineTotal(line) + d * line.product.price
  {
    var p := line.product.price;
    var q := line.quantity;
    assert p * (q + d) == p * q + d * p;
  }

  /** One more of a product raises the total by its line's price. */
  lemma {:induction false} TotalIncremented(cart: seq<CartItem>, productId: int)
    requires UniqueIds(cart)
    ensures CalculateTotal(Incremented(cart, productId)) == CalculateTotal(cart) + LinePrice(cart, productId)
  {
    if cart != [] {
      var b := Incremented(cart, productId);
      var tail := cart[1..];
      UniqueTail(cart);
      IncrementedTail(cart, productId);
      TotalIncremented(tail, productId);
      LinePriceCons(cart, productId);
      if cart[0].product.productId == productId {
        assert b[0] == CartItem(cart[0].product, cart[0].quantity + 1);
        LineTotalShift(cart[0], 1);
        assert FindLine(tail, productId).None?;
        TotalConsStep(cart, b, cart[0].product.price, 0);
      } else {
        assert b[0] == cart[0];
        TotalConsStep(cart, b, 0, LinePrice(tail, productId));
      }
    }
  }

  /** The total of a cart changed line by line: what its first line adds
      changes by `d`, and the total of the rest by `rest`. */
  lemma TotalConsStep(cart: seq<CartItem>, b: seq<CartItem>, d: int, rest: int)
    requires cart != [] && b != []
    requires LineTotal(b[0]) == LineTotal(cart[0]) + d
    requires CalculateTotal(b[1..]) == CalculateTotal(cart[1..]) + rest
    ensures CalculateTotal(b) == CalculateTotal(cart) + d + rest
  {
  }

  /** Incrementing works line by line, so the tail of the result is the
      result on the tail. */
  lemma IncrementedTail(cart: seq<CartItem>, productId: int)
    requires cart != []
    ensures Incremented(cart, productId)[1..] == Incremented(cart[1..], productId)
  {
    var b := Incremented(cart, productId);
    var c := Incremented(cart[1..], productId);
    forall i | 0 <= i < |c|
      ensures b[1..][i] == c[i]
    {
      assert cart[1..][i] == cart[i + 1];
    }
  }

  /** In a valid cart one fewer of a product lowers the total by its line's
      price (no line reaches below zero, so the floor never applies). */
  lemma {:induction false} TotalDecremented(cart: seq<CartItem>, productId: int)
    requires ValidCart(cart)
    ensures CalculateTotal(Decremented(cart, productId)) == CalculateTotal(cart) - LinePrice(cart, productId)
  {
    if cart != [] {
      var b := Decremented(cart, productId);
      var tail := cart[1..];
      UniqueTail(cart);
      assert forall i :: 0 <= i < |tail| ==> tail[i] == cart[i + 1];
      assert b[1..] == Decremented(tail, productId);
      TotalDecremented(tail, productId);
      LinePriceCons(cart, productId);
      if cart[0].product.productId == productId {
        assert b[0] == CartItem(cart[0].product, cart[0].quantity + -1);
        LineTotalShift(cart[0], -1);
        assert FindLine(tail, productId).None?;
      } else {
        assert b[0] == cart[0];
      }
    }
  }

  /** Lines of quantity zero add nothing, so dropping them keeps the total. */
  lemma {:induction false} TotalPositive(cart: seq<CartItem>)
    requires forall i :: 0 <= i < |cart| ==> cart[i].quantity >= 0
    ensures CalculateTotal(Positive(cart)) == CalculateTotal(cart)
  {
    if cart != [] {
      var rest := Positive(cart[1..]);
      assert forall i :: 0 <= i < |cart| - 1 ==> cart[1..][i] == cart[i + 1];
      TotalPositive(cart[1..]);
      if cart[0].quantity > 0 {
        var r := [cart[0]] + rest;
        assert Positive(cart) == r;
        assert r[0] == cart[0] && r[1..] == rest;
      } else {
        assert Positive(cart) == rest;
        assert LineTotal(cart[0]) == 0 by {
          assert cart[0].quantity == 0;
        }
      }
    }
  }

  /** Adding a product raises the total by the price on its line: the price
      the line was first added with, or the product's price for a new line. */
  lemma AddToOrderTotal(cart: seq<CartItem>, product: Product)
    requires ValidCart(cart)
    ensures CalculateTotal(AddToOrder(cart, product))
            == CalculateTotal(cart) + if FindLine(cart, product.productId).Some? then LinePrice(cart, product.productId) else product.price
  {
    if FindLine(cart, product.productId).Some? {
      TotalIncremented(cart, product.productId);
    } else {
      TotalAppend(cart, [CartItem(product, 1)]);
    }
  }

  /** Removing one of a product lowers the total by its line's price, and by
      nothing when it has no line. */
  lemma RemoveFromOrderTotal(cart: seq<CartItem>, productId: int)
    requires ValidCart(cart)
    ensures CalculateTotal(RemoveFromOrder(cart, productId)) == CalculateTotal(cart) - LinePrice(cart, productId)
  {
    TotalDecremented(cart, productId);
    TotalPositive(Decremented(cart, productId));
  }

  // ---- Categories and the filter ----------------------------------------

  /** The first position of `x` in `s`. */
  function FirstIndex(s: seq<string>, x: string): (k: nat)
    requires x in s
    ensures k < |s| && s[k] == x && forall j :: 0 <= j < k ==> s[j] != x
  {
    if s[0] == x then 0 else 1 + FirstIndex(s[1..], x)
  }

  /** `Array.from(new Set(s))`: each element once, in the order of its first
      occurrence. */
  function Distinct(s: seq<string>): (r: seq<string>)
    ensures forall x :: x in r <==> x in s
    ensures forall i, j :: 0 <= i < j < |r| ==> r[i] != r[j]
    decreases |s|
  {
    if s == [] then []
    else
      var init := s[..|s| - 1];
      assert s == init + [s[|s| - 1]];
      var d := Distinct(init);
      if s[|s| - 1] in d then d else d + [s[|s| - 1]]
  }

  /** The distinct elements come in the order of their first occurrences. */
  lemma {:induction false} DistinctFirstOccurrenceOrder(s: seq<string>)
    ensures forall i, j :: 0 <= i < j < |Distinct(s)| ==> FirstIndex(s, Distinct(s)[i]) < FirstIndex(s, Distinct(s)[j])
    decreases |s|
  {
    if s != [] {
      var init := s[..|s| - 1];
      var last := s[|s| - 1];
      assert s == init + [last];
      DistinctFirstOccurrenceOrder(init);
      var d := Distinct(init);
      forall x | x in init
        ensures FirstIndex(s, x) == FirstIndex(init, x)
      {
        FirstIndexOfInit(s, x);
      }
      if last !in d {
        assert FirstIndex(s, last) == |init| by {
          forall j | 0 <= j < |init|
            ensures s[j] != last
          {
            assert s[j] == init[j] && init[j] in d;
          }
          FirstIndexIs(s, last, |init|);
        }
        var r := d + [last];
        forall i, j | 0 <= i < j < |r|
          ensures FirstIndex(s, r[i]) < FirstIndex(s, r[j])
        {
          assert r[i] == d[i] && r[i] in init;
          if j < |d| {
            assert r[j] == d[j] && r[j] in init;
          } else {
            assert FirstIndex(init, r[i]) < |init|;
          }
        }
      }
    }
  }

  /** A position holding `x` with no `x` before it is the first index. */
  lemma FirstIndexIs(s: seq<string>, x: string, b: nat)
    requires b < |s| && s[b] == x && forall j :: 0 <= j < b ==> s[j] != x
    ensures FirstIndex(s, x) == b
  {
  }

  /** Appending an element does not move the first index of an earlier one. */
  lemma FirstIndexOfInit(s: seq<string>, x: string)
    requires s != [] && x in s[..|s| - 1]
    ensures FirstIndex(s, x) == FirstIndex(s[..|s| - 1], x)
  {
    var init := s[..|s| - 1];
    var b := FirstIndex(init, x);
    assert s[b] == init[b];
    forall j | 0 <= j < b
      ensures s[j] != x
    {
      assert s[j] == init[j];
    }
    FirstIndexIs(s, x, b);
  }

  /** The category name of every product, in product order. */
  function CategoryNames(products: seq<Product>): (names: seq<string>)
    ensures |names| == |products|
    ensures forall i :: 0 <= i < |products| ==> names[i] == products[i].category.name
  {
    seq(|products|, i requires 0 <= i < |products| => products[i].category.name)
  }

  /** `categories`: "all" followed by the distinct category names in order
      of first occurrence. */
  function Categories(products: seq<Product>): (cats: seq<string>)
    ensures |cats| >= 1 && cats[0] == "all"
    ensures forall n :: n in cats[1..] <==> exists p :: p in products && p.category.name == n
    ensures forall i, j :: 1 <= i < j < |cats| ==> cats[i] != cats[j]
  {
    var names := CategoryNames(products);
    assert forall n :: n in names <==> exists p :: p in products && p.category.name == n by {
      forall n | n in names
        ensures exists p :: p in products && p.category.name == n
      {
        var i :| 0 <= i < |names| && names[i] == n;
        assert products[i] in products;
      }
    }
    var cats := ["all"] + Distinct(names);
    assert cats[1..] == Distinct(names);
    cats
  }

  /** The category buttons follow the first appearance of each category in
      the product list. */
  lemma CategoriesInFirstOccurrenceOrder(products: seq<Product>)
    ensures var cats := Categories(products);
            forall i, j :: 1 <= i < j < |cats| ==>
              FirstIndex(CategoryNames(products), cats[i]) < FirstIndex(CategoryNames(products), cats[j])
  {
    var names := CategoryNames(products);
    DistinctFirstOccurrenceOrder(names);
    var cats := Categories(products);
    assert cats[1..] == Distinct(names);
    forall i, j | 1 <= i < j < |cats|
      ensures FirstIndex(names, cats[i]) < FirstIndex(names, cats[j])
    {
      assert cats[i] == Distinct(names)[i - 1] && cats[j] == Distinct(names)[j - 1];
    }
  }

  /** `products.filter(product => product.category.name === name)` */
  function InCategory(products: seq<Product>, name: string): (r: seq<Product>)
    ensures IsSubsequence(r, products)
    ensures forall p :: p in r <==> p in products && p.category.name == name
  {
    if products == [] then []
    else if products[0].category.name == name then [products[0]] + InCategory(products[1..], name)
    else InCategory(products[1..], name)
  }

  /** `filteredProducts`: every product for "all", otherwise the products of
      the selected category in menu order. */
  function FilteredProducts(products: seq<Product>, selectedCategory: string): (r: seq<Product>)
    ensures selectedCategory == "all" ==> r == products
    ensures selectedCategory != "all" ==>
              IsSubsequence(r, products) && forall p :: p in r <==> p in products && p.category.name == selectedCategory
  {
    if selectedCategory == "all" then products else InCategory(products, selectedCategory)
  }

  // ---- The order request ------------------------------------------------

  /** The placeholder customer name of every request. */
  const GuestName := "Kh\U{00E1}ch h\U{00E0}ng"

  /** The request `handleFinalConfirm` sends: the placeholder customer and
      table 0, one item per cart line with an empty note, and the total. */
  function OrderRequest(cart: seq<CartItem>): (req: CreateOrderRequest)
    ensures req.name == GuestName && req.tableNumber == 0
    ensures req.total == CalculateTotal(cart)
    ensures |req.items| == |cart|
    ensures forall i :: 0 <= i < |cart| ==>
              && req.items[i].productId == cart[i].product.productId
              && req.items[i].name == cart[i].product.name
              && req.items[i].quantity == cart[i].quantity
              && req.items[i].note == ""
  {
    CreateOrderRequest(GuestName, 0, CalculateTotal(cart),
      seq(|cart|, i requires 0 <= i < |cart| =>
        OrderItem(cart[i].product.productId, cart[i].product.name, cart[i].quantity, "")))
  }

  /** From a valid cart the request names each product once, with a positive
      quantity equal to what the page shows for it. */
  lemma OrderRequestMatchesCart(cart: seq<CartItem>)
    requires ValidCart(cart)
    ensures var items := OrderRequest(cart).items;
            && (forall i, j :: 0 <= i < j < |items| ==> items[i].productId != items[j].productId)
            && (forall i :: 0 <= i < |items| ==>
                  items[i].quantity >= 1 && items[i].quantity == GetProductQuantity(cart, items[i].productId))
  {
    var items := OrderRequest(cart).items;
    forall i | 0 <= i < |items|
      ensures items[i].quantity == GetProductQuantity(cart, items[i].productId)
    {
      assert cart[i] in cart;
      QuantityOfLine(cart, cart[i]);
    }
  }

  /** The order page's state. */
  datatype SubmitOutcome = Responded(response: ApiResponse<Order>) | Failed

  const SubmitFailedMessage := "C\U{00F3} l\U{1ED7}i x\U{1EA3}y ra khi t\U{1EA1}o \U{0111}\U{01A1}n h\U{00E0}ng. Vui l\U{00F2}ng th\U{1EED} l\U{1EA1}i."

  class OrderPageState {
    var products: seq<Product>
    var orderItems: seq<CartItem>
    var isLoading: bool
    var error: Option<string>
    var selectedCategory: string
    var showConfirmModal: bool
    var isSubmitting: bool
    var submitError: Option<string>

    ghost predicate Valid()
      reads this
    {
      ValidCart(orderItems)
    }

    /** The initial state: nothing loaded yet, loading, "all" selected. */
    constructor ()
      ensures Valid()
      ensures products == [] && orderItems == [] && isLoading && error == None
      ensures selectedCategory == "all" && !showConfirmModal && !isSubmitting && submitError == None
    {
      products := [];
      orderItems := [];
      isLoading := true;
      error := None;
      selectedCategory := "all";
      showConfirmModal := false;
      isSubmitting := false;
      submitError := None;
    }

    /** `fetchProducts`, given what `getAllProducts` returned: its error is
        shown, or its products become the menu; loading ends either way. */
    method FetchProducts(result: ApiResponse<seq<Product>>)
      modifies this
      ensures HasError(result.error) ==> error == result.error && products == old(products)
      ensures !HasError(result.error) ==> error == None && products == (if result.data.Data? then result.data.value else [])
      ensures !isLoading
      ensures orderItems == old(orderItems) && selectedCategory == old(selectedCategory)
      ensures showConfirmModal == old(showConfirmModal) && isSubmitting == old(isSubmitting) && submitError == old(submitError)
    {
      isLoading := true;
      error := None;
      if HasError(result.error) {
        error := result.error;
      } else {
        products := if result.data.Data? then result.data.value else [];
      }
      isLoading := false;
    }

    /** A category button's click. */
    method SelectCategory(category: string)
      modifies this
      ensures selectedCategory == category
      ensures products == old(products) && orderItems == old(orderItems) && isLoading == old(isLoading) && error == old(error)
      ensures showConfirmModal == old(showConfirmModal) && isSubmitting == old(isSubmitting) && submitError == old(submitError)
    {
      selectedCategory := category;
    }

    /** The "+" button of a product. */
    method PressAdd(product: Product)
      requires Valid()
      modifies this
      ensures Valid()
      ensures orderItems == AddToOrder(old(orderItems), product)
      ensures products == old(products) && isLoading == old(isLoading) && error == old(error) && selectedCategory == old(selectedCategory)
      ensures showConfirmModal == old(showConfirmModal) && isSubmitting == old(isSubmitting) && submitError == old(submitError)
    {
      AddToOrderProperties(orderItems, product, product.productId);
      orderItems := AddToOrder(orderItems, product);
    }

    /** The "-" button of a product. */
    method PressRemove(productId: int)
      requires Valid()
      modifies this
      ensures Valid()
      ensures orderItems == RemoveFromOrder(old(orderItems), productId)
      ensures products == old(products) && isLoading == old(isLoading) && error == old(error) && selectedCategory == old(selectedCategory)
      ensures showConfirmModal == old(showConfirmModal) && isSubmitting == old(isSubmitting) && submitError == old(submitError)
    {
      RemoveFromOrderValid(orderItems, productId);
      orderItems := RemoveFromOrder(orderItems, productId);
    }

    /** `handleConfirmOrder`: opens the confirmation dialog. */
    method HandleConfirmOrder()
      modifies this
      ensures showConfirmModal
      ensures products == old(products) && orderItems == old(orderItems) && isLoading == old(isLoading) && error == old(error)
      ensures selectedCategory == old(selectedCategory) && isSubmitting == old(isSubmitting) && submitError == old(submitError)
    {
      showConfirmModal := true;
    }

    /** The dialog's cancel button: closes it and forgets the last error. */
    method HandleCancel()
      modifies this
      ensures !showConfirmModal && submitError == None
      ensures products == old(products) && orderItems == old(orderItems) && isLoading == old(isLoading) && error == old(error)
      ensures selectedCategory == old(selectedCategory) && isSubmitting == old(isSubmitting)
    {
      showConfirmModal := false;
      submitError := None;
    }

    /** The dialog's `onOpenChange` (overlay click, Escape): only the
        visibility changes; unlike the cancel button it keeps the error. */
    method DialogOpenChange(open: bool)
      modifies this
      ensures showConfirmModal == open
      ensures products == old(products) && orderItems == old(orderItems) && isLoading == old(isLoading) && error == old(error)
      ensures selectedCategory == old(selectedCategory) && isSubmitting == old(isSubmitting) && submitError == old(submitError)
    {
      showConfirmModal := open;
    }

    /** `handleFinalConfirm`: builds the request from the cart and, given how
        `createOrder` ended, either keeps the cart and shows the error, or
        closes the dialog and empties the cart. Submitting ends either way. */
    method HandleFinalConfirm(outcome: SubmitOutcome) returns (request: CreateOrderRequest)
      requires Valid()
      modifies this
      ensures Valid()
      ensures request == OrderRequest(old(orderItems))
      ensures outcome.Failed? ==>
                submitError == Some(SubmitFailedMessage) && orderItems == old(orderItems) && showConfirmModal == old(showConfirmModal)
      ensures outcome.Responded? && HasError(outcome.response.error) ==>
                submitError == outcome.response.error && orderItems == old(orderItems) && showConfirmModal == old(showConfirmModal)
      ensures outcome.Responded? && !HasError(outcome.response.error) ==>
                submitError == None && orderItems == [] && !showConfirmModal
      ensures !isSubmitting
      ensures products == old(products) && isLoading == old(isLoading) && error == old(error) && selectedCategory == old(selectedCategory)
    {
      isSubmitting := true;
      submitError := None;
      request := OrderRequest(orderItems);
      match outcome {
        case Failed =>
          submitError := Some(SubmitFailedMessage);
          isSubmitting := false;
        case Responded(result) =>
          if HasError(result.error) {
            submitError := result.error;
            isSubmitting := false;
            return;
          }
          showConfirmModal := false;
          orderItems := [];
          isSubmitting := false;
      }
    }
  }
}
