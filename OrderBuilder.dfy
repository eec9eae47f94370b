/** Turning a user's cart lines into frozen order lines, a total and a stock deduction: the
    value-level meaning of the order-creation loop, and what that loop guarantees. */
module OrderBuilder {
  import opened Domain
  import opened Inventory

  /** Puts already built order lines in front of the outcome of the remaining lines. */
  function Then(pre: seq<OrderItem>, r: Result<seq<OrderItem>>): Result<seq<OrderItem>> {
    match r
    case Ok(rest) => Ok(pre + rest)
    case Err(e) => Err(e)
  }

  /** Prepending in two steps is prepending the concatenation. */
  lemma ThenThen(a: seq<OrderItem>, b: seq<OrderItem>, r: Result<seq<OrderItem>>)
    ensures Then(a, Then(b, r)) == Then(a + b, r)
  {
    if r.Ok? {
      assert a + (b + r.value) == (a + b) + r.value;
    }
  }

  /** Whether the catalogue can serve one cart line as it stands. */
  predicate LineStocked(ps: Catalog, line: CartItem) {
    line.productId in ps && line.quantity <= ps[line.productId].stock
  }

  /** The failure a line that cannot be served causes. */
  function Shortfall(ps: Catalog, line: CartItem): Error {
    if line.productId !in ps then ProductNotFound(line.productId)
    else InsufficientStockFor(ps[line.productId].name, ps[line.productId].stock)
  }

  /** The order lines built from the cart lines, one line at a time: each line is checked against
      the stock left after the earlier lines were deducted, then frozen at the current price and
      deducted. The first line that cannot be served stops the whole order. */
  function Checkout(ps: Catalog, lines: seq<CartItem>): Result<seq<OrderItem>>
    decreases |lines|
  {
    if lines == [] then Ok([])
    else
      var line := lines[0];
      if !LineStocked(ps, line) then Err(Shortfall(ps, line))
      else
        var item := OrderItem(line.productId, line.quantity, ps[line.productId].price);
        Then([item], Checkout(Adjust(ps, line.productId, -line.quantity), lines[1..]))
  }

  /** One step of the checkout of the lines from `i` on. */
  lemma CheckoutStep(ps: Catalog, lines: seq<CartItem>, i: nat)
    requires i < |lines|
    ensures !LineStocked(ps, lines[i]) ==> Checkout(ps, lines[i..]) == Err(Shortfall(ps, lines[i]))
    ensures LineStocked(ps, lines[i]) ==>
              Checkout(ps, lines[i..])
              == Then([OrderItem(lines[i].productId, lines[i].quantity, ps[lines[i].productId].price)],
                      Checkout(Adjust(ps, lines[i].productId, -lines[i].quantity), lines[i + 1..]))
  {
  }

  /** The checkout resumed at line `i`, with the earlier lines frozen as `items` and `ps` the
      stock they left: the order-creation loop's own view of Checkout. */
  function Resume(ps: Catalog, lines: seq<CartItem>, i: nat, items: seq<OrderItem>): Result<seq<OrderItem>>
    requires i <= |lines|
    decreases |lines| - i
  {
    if i == |lines| then Ok(items)
    else if !LineStocked(ps, lines[i]) then Err(Shortfall(ps, lines[i]))
    else
      var item := OrderItem(lines[i].productId, lines[i].quantity, ps[lines[i].productId].price);
      Resume(Adjust(ps, lines[i].productId, -lines[i].quantity), lines, i + 1, items + [item])
  }

  /** Resuming at line `i` puts the frozen lines in front of the checkout of the remaining lines. */
  lemma {:induction false} ResumeThen(ps: Catalog, lines: seq<CartItem>, i: nat, items: seq<OrderItem>)
    requires i <= |lines|
    ensures Resume(ps, lines, i, items) == Then(items, Checkout(ps, lines[i..]))
    decreases |lines| - i
  {
    if i == |lines| {
      assert lines[i..] == [];
      assert items + [] == items;
    } else {
      CheckoutStep(ps, lines, i);
      if LineStocked(ps, lines[i]) {
        var item := OrderItem(lines[i].productId, lines[i].quantity, ps[lines[i].productId].price);
        var ps' := Adjust(ps, lines[i].productId, -lines[i].quantity);
        ResumeThen(ps', lines, i + 1, items + [item]);
        ThenThen(items, [item], Checkout(ps', lines[i + 1..]));
      }
    }
  }

  /** The loop started at the first line with nothing frozen computes the checkout. */
  lemma ResumeFromStart(ps: Catalog, lines: seq<CartItem>)
    ensures Resume(ps, lines, 0, []) == Checkout(ps, lines)
  {
    ResumeThen(ps, lines, 0, []);
    assert lines[0..] == lines;
    if Checkout(ps, lines).Ok? {
      assert [] + Checkout(ps, lines).value == Checkout(ps, lines).value;
    }
  }

  /** Order creation on a cart: an empty cart is refused before anything else. */
  function PlaceOrder(ps: Catalog, lines: seq<CartItem>): Result<seq<OrderItem>> {
    if |lines| == 0 then Err(CartEmpty) else Checkout(ps, lines)
  }

  /** The sum of unit price times quantity over the order lines. */
  function Total(items: seq<OrderItem>): int
    decreases |items|
  {
    if items == [] then 0 else items[0].price * items[0].quantity + Total(items[1..])
  }

  /** The cost of the cart lines at the catalogue's current prices. */
  function LineCost(ps: Catalog, lines: seq<CartItem>): int
    decreases |lines|
  {
    if lines == [] then 0
    else (if lines[0].productId in ps then ps[lines[0].productId].price * lines[0].quantity else 0)
         + LineCost(ps, lines[1..])
  }

  /** No two lines name the same product (true of one user's cart, one line per product). */
  predicate DistinctProducts(lines: seq<CartItem>) {
    forall i, j :: 0 <= i < j < |lines| ==> lines[i].productId != lines[j].productId
  }

  predicate Stocked(ps: Catalog, lines: seq<CartItem>) {
    forall i :: 0 <= i < |lines| ==> LineStocked(ps, lines[i])
  }

  /** Adding one line to the order adds its price times its quantity to the total. */
  lemma {:induction false} TotalSnoc(items: seq<OrderItem>, item: OrderItem)
    ensures Total(items + [item]) == Total(items) + item.price * item.quantity
    decreases |items|
  {
    if items == [] {
      assert [item][1..] == [];
    } else {
      assert (items + [item])[1..] == items[1..] + [item];
      TotalSnoc(items[1..], item);
    }
  }

  /** A successful checkout has one order line per cart line, in cart order, copying the product
      id and the quantity and freezing the catalogue price taken at creation time. */
  lemma {:induction false} CheckoutItems(ps: Catalog, lines: seq<CartItem>)
    ensures Checkout(ps, lines).Ok? ==>
      var items := Checkout(ps, lines).value;
      && |items| == |lines|
      && forall i :: 0 <= i < |lines| ==>
           lines[i].productId in ps
           && items[i] == OrderItem(lines[i].productId, lines[i].quantity, ps[lines[i].productId].price)
    decreases |lines|
  {
    if lines != [] && LineStocked(ps, lines[0]) {
      var ps' := Adjust(ps, lines[0].productId, -lines[0].quantity);
      CheckoutItems(ps', lines[1..]);
      if Checkout(ps, lines).Ok? {
        var items := Checkout(ps, lines).value;
        var rest := Checkout(ps', lines[1..]).value;
        assert items == [items[0]] + rest;
        forall i | 1 <= i < |lines|
          ensures lines[i].productId in ps
          ensures items[i] == OrderItem(lines[i].productId, lines[i].quantity, ps[lines[i].productId].price)
        {
          assert lines[i] == lines[1..][i - 1];
          assert items[i] == rest[i - 1];
        }
      }
    }
  }

  /** Order lines that freeze the catalogue's prices cost what the cart lines cost. */
  lemma {:induction false} TotalOfFrozenLines(ps: Catalog, lines: seq<CartItem>, items: seq<OrderItem>)
    requires |items| == |lines|
    requires forall i :: 0 <= i < |lines| ==>
      lines[i].productId in ps
      && items[i] == OrderItem(lines[i].productId, lines[i].quantity, ps[lines[i].productId].price)
    ensures Total(items) == LineCost(ps, lines)
    decreases |lines|
  {
    if lines != [] {
      assert forall i :: 1 <= i < |lines| ==> lines[1..][i - 1] == lines[i] && items[1..][i - 1] == items[i];
      TotalOfFrozenLines(ps, lines[1..], items[1..]);
    }
  }

  /** The total of a successful checkout is the sum of price times quantity over the cart. */
  lemma CheckoutTotal(ps: Catalog, lines: seq<CartItem>)
    ensures Checkout(ps, lines).Ok? ==> Total(Checkout(ps, lines).value) == LineCost(ps, lines)
  {
    CheckoutItems(ps, lines);
    if Checkout(ps, lines).Ok? {
      TotalOfFrozenLines(ps, lines, Checkout(ps, lines).value);
    }
  }

  /** On a cart with one line per product, the checkout succeeds exactly when every product
      exists and has at least the line's quantity in stock. */
  lemma {:induction false} CheckoutSucceedsIff(ps: Catalog, lines: seq<CartItem>)
    requires DistinctProducts(lines)
    ensures Checkout(ps, lines).Ok? <==> Stocked(ps, lines)
    decreases |lines|
  {
    if lines != [] && LineStocked(ps, lines[0]) {
      var ps' := Adjust(ps, lines[0].productId, -lines[0].quantity);
      var tail := lines[1..];
      assert forall i :: 0 <= i < |tail| ==> tail[i] == lines[i + 1];
      assert DistinctProducts(tail);
      CheckoutSucceedsIff(ps', tail);
      assert forall i :: 0 <= i < |tail| ==> (LineStocked(ps', tail[i]) <==> LineStocked(ps, tail[i]));
    }
  }

  /** On a cart with one line per product, a failed checkout reports the first line that cannot
      be served: a missing product, or its name and the stock available. */
  lemma {:induction false} CheckoutError(ps: Catalog, lines: seq<CartItem>)
    requires DistinctProducts(lines)
    ensures Checkout(ps, lines).Err? ==>
      exists i :: 0 <= i < |lines| && !LineStocked(ps, lines[i])
                  && (forall j :: 0 <= j < i ==> LineStocked(ps, lines[j]))
                  && Checkout(ps, lines).error == Shortfall(ps, lines[i])
    decreases |lines|
  {
    if lines != [] && LineStocked(ps, lines[0]) {
      var ps' := Adjust(ps, lines[0].productId, -lines[0].quantity);
      var tail := lines[1..];
      assert forall i :: 0 <= i < |tail| ==> tail[i] == lines[i + 1];
      assert DistinctProducts(tail);
      CheckoutError(ps', tail);
      if Checkout(ps, lines).Err? {
        var i :| 0 <= i < |tail| && !LineStocked(ps', tail[i])
                 && (forall j :: 0 <= j < i ==> LineStocked(ps', tail[j]))
                 && Checkout(ps', tail).error == Shortfall(ps', tail[i]);
        assert tail[i].productId != lines[0].productId;
        assert Shortfall(ps', tail[i]) == Shortfall(ps, lines[i + 1]);
        forall j | 0 <= j < i + 1 ensures LineStocked(ps, lines[j]) {
          if j > 0 {
            assert tail[j - 1].productId != lines[0].productId;
          }
        }
      }
    }
  }

  /** With distinct products, the units of one line's product are that line's quantity. */
  lemma {:induction false} UnitsOfDistinct(items: seq<OrderItem>, k: nat)
    requires k < |items|
    requires forall i, j :: 0 <= i < j < |items| ==> items[i].productId != items[j].productId
    ensures Units(items, items[k].productId) == items[k].quantity
    decreases |items|
  {
    var tail := items[1..];
    assert forall i :: 0 <= i < |tail| ==> tail[i] == items[i + 1];
    if k == 0 {
      UnitsOfAbsent(tail, items[0].productId);
    } else {
      UnitsOfDistinct(tail, k - 1);
    }
  }

  /** A product no line names is asked for in zero units. */
  lemma {:induction false} UnitsOfAbsent(items: seq<OrderItem>, id: ProductId)
    requires forall i :: 0 <= i < |items| ==> items[i].productId != id
    ensures Units(items, id) == 0
    decreases |items|
  {
    if items != [] {
      assert forall i :: 0 <= i < |items[1..]| ==> items[1..][i] == items[i + 1];
      UnitsOfAbsent(items[1..], id);
    }
  }

  /** On a cart with one line per product, a successful checkout lowers each line's product by
      the line's quantity and leaves every other product, and every other field, as it was. */
  lemma CheckoutDeducts(ps: Catalog, lines: seq<CartItem>)
    requires DistinctProducts(lines)
    ensures Checkout(ps, lines).Ok? ==>
      var after := Shift(ps, Checkout(ps, lines).value, Take);
      && after.Keys == ps.Keys
      && (forall i :: 0 <= i < |lines| ==>
            lines[i].productId in ps &&
            after[lines[i].productId] == ps[lines[i].productId].(stock := ps[lines[i].productId].stock - lines[i].quantity))
      && (forall id :: id in ps && (forall i :: 0 <= i < |lines| ==> lines[i].productId != id) ==> after[id] == ps[id])
  {
    CheckoutItems(ps, lines);
    if Checkout(ps, lines).Ok? {
      var items := Checkout(ps, lines).value;
      ShiftAt(ps, items, Take);
      forall i | 0 <= i < |lines| ensures Units(items, lines[i].productId) == lines[i].quantity {
        UnitsOfDistinct(items, i);
      }
      forall id | id in ps && (forall i :: 0 <= i < |lines| ==> lines[i].productId != id)
        ensures Units(items, id) == 0
      {
        UnitsOfAbsent(items, id);
      }
    }
  }

  /** Because every line is checked against the stock left after the earlier lines, a successful
      checkout never drives a counter below zero, even when two lines name one product. */
  lemma {:induction false} CheckoutKeepsStockNonNegative(ps: Catalog, lines: seq<CartItem>)
    requires forall id :: id in ps ==> ps[id].stock >= 0
    ensures Checkout(ps, lines).Ok? ==>
      var after := Shift(ps, Checkout(ps, lines).value, Take);
      forall id :: id in after ==> after[id].stock >= 0
    decreases |lines|
  {
    if lines == [] {
      assert Shift(ps, [], Take) == ps;
    } else if LineStocked(ps, lines[0]) && Checkout(ps, lines).Ok? {
      var ps' := Adjust(ps, lines[0].productId, -lines[0].quantity);
      CheckoutKeepsStockNonNegative(ps', lines[1..]);
      var items := Checkout(ps, lines).value;
      var rest := Checkout(ps', lines[1..]).value;
      assert items[0].productId == lines[0].productId && Delta(items[0], Take) == -lines[0].quantity;
      assert items == [items[0]] + rest;
      assert items[1..] == rest;
      assert Shift(ps, items, Take) == Shift(ps', rest, Take);
      assert forall id :: id in ps' ==> ps'[id].stock >= 0;
      assert Checkout(ps', lines[1..]).Ok?;
      var after' := Shift(ps', rest, Take);
      assert forall id :: id in after' ==> after'[id].stock >= 0;
    }
  }

  /** Cancelling what a successful checkout created finds every product and gives back exactly
      the stock it took: creation followed by cancellation restores every counter. */
  lemma CancelUndoesCheckout(ps: Catalog, lines: seq<CartItem>)
    ensures Checkout(ps, lines).Ok? ==>
      var items := Checkout(ps, lines).value;
      && MissingProduct(Shift(ps, items, Take), items).None?
      && Shift(Shift(ps, items, Take), items, Give) == ps
  {
    CheckoutItems(ps, lines);
    if Checkout(ps, lines).Ok? {
      var items := Checkout(ps, lines).value;
      ShiftAt(ps, items, Take);
      ShiftUndo(ps, items, Take);
    }
  }

  /** The two-line cart of the end-to-end scenario: 2 units at 50000 and 5 units at 1000 make a
      total of 105000, and stock goes from 10 to 8 and from 50 to 45. */
  lemma ExampleOrder()
    ensures
      var ps := map[1 := Product(1, "Laptop", "", 50000, 10), 2 := Product(2, "Mouse", "", 1000, 50)];
      var lines := [CartItem(0, "u", 1, 2), CartItem(1, "u", 2, 5)];
      && Checkout(ps, lines).Ok?
      && Total(Checkout(ps, lines).value) == 105000
      && Shift(ps, Checkout(ps, lines).value, Take)[1].stock == 8
      && Shift(ps, Checkout(ps, lines).value, Take)[2].stock == 45
  {
    var ps := map[1 := Product(1, "Laptop", "", 50000, 10), 2 := Product(2, "Mouse", "", 1000, 50)];
    var lines := [CartItem(0, "u", 1, 2), CartItem(1, "u", 2, 5)];
    assert DistinctProducts(lines);
    assert Stocked(ps, lines) by {
      assert LineStocked(ps, lines[0]) && LineStocked(ps, lines[1]);
    }
    CheckoutSucceedsIff(ps, lines);
    CheckoutTotal(ps, lines);
    assert lines[1..][1..] == [];
    assert LineCost(ps, lines) == 105000;
    CheckoutDeducts(ps, lines);
    assert lines[0].productId == 1 && lines[1].productId == 2;
  }
}
