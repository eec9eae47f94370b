/** The stock counters of the catalogue, and what runs of stock updates do to them. */
module Inventory {
  import opened Domain

  /** The stored catalogue, by product id. */
  type Catalog = map<ProductId, Product>

  /** The catalogue after one read-modify-write of a product's stock counter; a missing product
      is left missing (the update itself fails). */
  function Adjust(ps: Catalog, id: ProductId, delta: int): (r: Catalog)
    ensures r.Keys == ps.Keys
    ensures id in ps ==> r[id] == ps[id].(stock := ps[id].stock + delta)
    ensures forall k :: k in ps && k != id ==> r[k] == ps[k]
  {
    if id in ps then ps[id := ps[id].(stock := ps[id].stock + delta)] else ps
  }

  /** Two updates of one product by opposite amounts cancel out. */
  lemma AdjustUndo(ps: Catalog, id: ProductId, delta: int)
    ensures Adjust(Adjust(ps, id, delta), id, -delta) == ps
  {
  }

  /** Take: deduct an order's quantities (order creation). Give: add them back (cancellation). */
  datatype Direction = Take | Give {
    function Opposite(): Direction {
      if this == Take then Give else Take
    }
  }

  /** The stock change one order line causes. */
  function Delta(item: OrderItem, dir: Direction): int {
    if dir == Take then -item.quantity else item.quantity
  }

  /** The catalogue after one stock update per order line, in line order. */
  function Shift(ps: Catalog, items: seq<OrderItem>, dir: Direction): Catalog
    decreases |items|
  {
    if items == [] then ps
    else Shift(Adjust(ps, items[0].productId, Delta(items[0], dir)), items[1..], dir)
  }

  /** The number of units of product `id` the lines ask for. */
  function Units(items: seq<OrderItem>, id: ProductId): int
    decreases |items|
  {
    if items == [] then 0
    else (if items[0].productId == id then items[0].quantity else 0) + Units(items[1..], id)
  }

  /** The net stock change of product `id` after a run of updates. */
  function Net(items: seq<OrderItem>, id: ProductId, dir: Direction): int {
    if dir == Take then -Units(items, id) else Units(items, id)
  }

  /** A run of updates keeps the set of products and moves each counter by its net change;
      nothing but stock changes. */
  lemma {:induction false} ShiftAt(ps: Catalog, items: seq<OrderItem>, dir: Direction)
    ensures Shift(ps, items, dir).Keys == ps.Keys
    ensures forall id :: id in ps ==>
      Shift(ps, items, dir)[id] == ps[id].(stock := ps[id].stock + Net(items, id, dir))
    decreases |items|
  {
    if items != [] {
      var ps' := Adjust(ps, items[0].productId, Delta(items[0], dir));
      ShiftAt(ps', items[1..], dir);
    }
  }

  /** Appending a line to a run appends one update. */
  lemma {:induction false} ShiftSnoc(ps: Catalog, items: seq<OrderItem>, item: OrderItem, dir: Direction)
    ensures Shift(ps, items + [item], dir) == Adjust(Shift(ps, items, dir), item.productId, Delta(item, dir))
    decreases |items|
  {
    if items == [] {
      assert [item][1..] == [];
    } else {
      assert (items + [item])[1..] == items[1..] + [item];
      ShiftSnoc(Adjust(ps, items[0].productId, Delta(items[0], dir)), items[1..], item, dir);
    }
  }

  /** Extending a prefix of the run by one line applies that line's update, and no prefix adds or
      removes products. */
  lemma ShiftPrefix(ps: Catalog, items: seq<OrderItem>, j: nat, dir: Direction)
    requires j < |items|
    ensures Shift(ps, items[..j + 1], dir) == Adjust(Shift(ps, items[..j], dir), items[j].productId, Delta(items[j], dir))
    ensures Shift(ps, items[..j], dir).Keys == ps.Keys
  {
    assert items[..j + 1] == items[..j] + [items[j]];
    ShiftSnoc(ps, items[..j], items[j], dir);
    ShiftAt(ps, items[..j], dir);
  }

  /** Undoing a run of updates with the opposite run restores every counter. */
  lemma ShiftUndo(ps: Catalog, items: seq<OrderItem>, dir: Direction)
    ensures Shift(Shift(ps, items, dir), items, dir.Opposite()) == ps
  {
    var mid := Shift(ps, items, dir);
    ShiftAt(ps, items, dir);
    ShiftAt(mid, items, dir.Opposite());
    var back := Shift(mid, items, dir.Opposite());
    assert forall id :: id in ps ==> back[id] == ps[id];
  }

  /** The first line whose product is absent from the catalogue, if any. */
  function MissingProduct(ps: Catalog, items: seq<OrderItem>): (r: Option<ProductId>)
    ensures r.None? <==> forall i :: 0 <= i < |items| ==> items[i].productId in ps
    ensures r.Some? ==> exists i :: 0 <= i < |items| && items[i].productId == r.value && r.value !in ps
                                 && forall j :: 0 <= j < i ==> items[j].productId in ps
    decreases |items|
  {
    if items == [] then None
    else if items[0].productId !in ps then Some(items[0].productId)
    else
      var rest := MissingProduct(ps, items[1..]);
      assert forall i :: 1 <= i < |items| ==> items[i] == items[1..][i - 1];
      rest
  }

  /** The line at `j` is the first whose product is absent exactly when MissingProduct names it. */
  lemma FirstMissing(ps: Catalog, items: seq<OrderItem>, j: nat)
    requires j < |items| && items[j].productId !in ps
    requires forall k :: 0 <= k < j ==> items[k].productId in ps
    ensures MissingProduct(ps, items) == Some(items[j].productId)
  {
  }
}
