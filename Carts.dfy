/** The cart service: one line per (user, product), merged on repeated adds after a stock check
    that only reads the catalogue. */
module Carts {
  import opened Domain
  import opened Repositories
  import opened Products

  /** A cart line joined with its catalogue entry, when the product still exists. */
  datatype CartItemResponse = CartItemResponse(
    id: CartItemId,
    userId: UserId,
    productId: ProductId,
    quantity: int,
    product: Option<Product>)

  class CartService {
    const carts: CartRepository
    const productService: ProductService

    ghost predicate Valid()
      reads this, carts, productService, productService.repo
    {
      carts.Valid() && productService.Valid()
    }

    constructor (carts: CartRepository, productService: ProductService)
      requires carts.Valid() && productService.Valid()
      ensures this.carts == carts && this.productService == productService && Valid()
    {
      this.carts := carts;
      this.productService := productService;
    }

    /** Adds `quantity` units of a product to the user's cart. The product must exist and its stock
        must cover the requested quantity and, when the user already has a line for it, the merged
        quantity; a failed add leaves the cart as it was. An add never touches stock. */
    method AddToCart(userId: UserId, productId: ProductId, quantity: int) returns (r: Result<CartItem>)
      requires Valid()
      modifies carts
      ensures Valid()
      ensures var ps := productService.repo.products;
              var existing := old(carts.FindByUserIdAndProductId(userId, productId));
              && (productId !in ps ==> r == Err(ProductNotFound(productId)))
              && (productId in ps && ps[productId].stock < quantity ==> r == Err(InsufficientStock(ps[productId].stock)))
              && (productId in ps && quantity <= ps[productId].stock && existing.Some? ==>
                    if ps[productId].stock < existing.value.quantity + quantity
                    then r == Err(InsufficientStock(ps[productId].stock))
                    else r == Ok(existing.value.(quantity := existing.value.quantity + quantity))
                         && carts.lines == old(carts.lines)[existing.value.id := r.value]
                         && carts.nextId == old(carts.nextId))
              && (productId in ps && quantity <= ps[productId].stock && existing.None? ==>
                    && r == Ok(CartItem(old(carts.nextId), userId, productId, quantity))
                    && r.value.id !in old(carts.lines)
                    && carts.lines == old(carts.lines)[r.value.id := r.value]
                    && carts.nextId == old(carts.nextId) + 1)
      ensures r.Err? ==> unchanged(carts)
      ensures r.Ok? ==> carts.FindByUserIdAndProductId(userId, productId) == Some(r.value)
    {
      var product := productService.GetProductById(productId);
      if product.Err? {
        return Err(product.error);
      }
      var stock := product.value.stock;
      if stock < quantity {
        return Err(InsufficientStock(stock));
      }
      var existing := carts.FindByUserIdAndProductId(userId, productId);
      if existing.Some? {
        var item := existing.value;
        var newQuantity := item.quantity + quantity;
        if stock < newQuantity {
          return Err(InsufficientStock(stock));
        }
        var merged := item.(quantity := newQuantity);
        carts.Save(merged);
        r := Ok(merged);
      } else {
        var item := carts.Insert(userId, productId, quantity);
        r := Ok(item);
      }
      OnlyLineFor(carts, userId, productId, r.value);
    }

    /** The user's cart lines in cart order, each copied into a response that carries the product
        when it is still in the catalogue and none when it is not; a missing product is no error. */
    method GetCartItems(userId: UserId) returns (responses: seq<CartItemResponse>)
      requires Valid()
      ensures var items := carts.FindByUserId(userId);
              && |responses| == |items|
              && forall i :: 0 <= i < |items| ==> Describes(responses[i], items[i], productService.repo.products)
    {
      var items := carts.FindByUserId(userId);
      responses := [];
      for i := 0 to |items|
        invariant |responses| == i
        invariant forall j :: 0 <= j < i ==> Describes(responses[j], items[j], productService.repo.products)
      {
        var item := items[i];
        var product := productService.GetProductById(item.productId);
        var attached := if product.Ok? then Some(product.value) else None;
        responses := responses + [CartItemResponse(item.id, item.userId, item.productId, item.quantity, attached)];
      }
    }

    /** Removes every line of the user and no other line. */
    method ClearCart(userId: UserId)
      requires Valid()
      modifies carts
      ensures Valid() && carts.nextId == old(carts.nextId)
      ensures carts.lines == map k | k in old(carts.lines) && old(carts.lines)[k].userId != userId :: old(carts.lines)[k]
      ensures carts.FindByUserId(userId) == []
    {
      carts.DeleteByUserId(userId);
    }

    /** Removes the line with that id; an absent id is no error. */
    method RemoveCartItem(cartItemId: CartItemId)
      requires Valid()
      modifies carts
      ensures Valid() && carts.nextId == old(carts.nextId)
      ensures carts.lines == old(carts.lines) - {cartItemId}
    {
      carts.DeleteById(cartItemId);
    }
  }

  /** The response copies the line's id, user, product and quantity, and carries the catalogue
      entry exactly when the product is in the catalogue. */
  predicate Describes(response: CartItemResponse, item: CartItem, ps: map<ProductId, Product>) {
    && response.id == item.id
    && response.userId == item.userId
    && response.productId == item.productId
    && response.quantity == item.quantity
    && (item.productId in ps ==> response.product == Some(ps[item.productId]))
    && (item.productId !in ps ==> response.product == None)
  }

  /** A stored line for the (user, product) is the one the lookup returns, since the cart holds
      no second line for that pair. */
  lemma OnlyLineFor(carts: CartRepository, userId: UserId, productId: ProductId, item: CartItem)
    requires carts.Valid()
    requires item.id in carts.lines && carts.lines[item.id] == item
    requires item.userId == userId && item.productId == productId
    ensures carts.FindByUserIdAndProductId(userId, productId) == Some(item)
  {
  }
}
