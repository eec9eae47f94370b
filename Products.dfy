/** The product service: catalogue maintenance and the stock counter every order moves. */
module Products {
  import opened Domain
  import opened Inventory
  import opened Repositories

  class ProductService {
    const repo: ProductRepository

    ghost predicate Valid()
      reads this, repo
    {
      repo.Valid()
    }

    constructor (repo: ProductRepository)
      requires repo.Valid()
      ensures this.repo == repo && Valid()
    {
      this.repo := repo;
    }

    /** Stores a new product under a fresh id, whatever id the request carried. */
    method CreateProduct(product: Product) returns (saved: Product)
      requires Valid()
      modifies repo
      ensures Valid()
      ensures saved == product.(id := old(repo.nextId)) && saved.id !in old(repo.products)
      ensures repo.products == old(repo.products)[saved.id := saved]
    {
      saved := repo.Insert(product);
    }

    /** The stored product, or "product not found" when the id is absent. */
    function GetProductById(id: ProductId): (r: Result<Product>)
      reads this, repo
      requires Valid()
      ensures r.Ok? <==> id in repo.products
      ensures r.Ok? ==> r.value == repo.products[id] && r.value.id == id
      ensures r.Err? ==> r.error == ProductNotFound(id)
    {
      if id in repo.products then Ok(repo.products[id]) else Err(ProductNotFound(id))
    }

    /** Overwrites name, description, price and stock of an existing product, keeping its id. */
    method UpdateProduct(id: ProductId, product: Product) returns (r: Result<Product>)
      requires Valid()
      modifies repo
      ensures Valid() && repo.nextId == old(repo.nextId)
      ensures id !in old(repo.products) ==> r == Err(ProductNotFound(id)) && repo.products == old(repo.products)
      ensures id in old(repo.products) ==>
        && r == Ok(Product(id, product.name, product.description, product.price, product.stock))
        && repo.products == old(repo.products)[id := r.value]
    {
      var existing := GetProductById(id);
      if existing.Err? {
        return Err(existing.error);
      }
      var updated := existing.value.(name := product.name, description := product.description,
                                     price := product.price, stock := product.stock);
      repo.Save(updated);
      r := Ok(updated);
    }

    /** Removes the product with that id; an absent id is no error. */
    method DeleteProduct(id: ProductId)
      requires Valid()
      modifies repo
      ensures Valid() && repo.nextId == old(repo.nextId)
      ensures repo.products == old(repo.products) - {id}
    {
      repo.DeleteById(id);
    }

    /** Moves the product's stock counter by `quantity` (negative to deduct) and nothing else;
        a missing product is reported and nothing changes. */
    method UpdateStock(productId: ProductId, quantity: int) returns (r: Result<()>)
      requires Valid()
      modifies repo
      ensures Valid() && repo.nextId == old(repo.nextId)
      ensures r.Ok? <==> productId in old(repo.products)
      ensures r.Err? ==> r.error == ProductNotFound(productId)
      ensures repo.products == Adjust(old(repo.products), productId, quantity)
    {
      var product := GetProductById(productId);
      if product.Err? {
        return Err(product.error);
      }
      repo.Save(product.value.(stock := product.value.stock + quantity));
      r := Ok(());
    }
  }
}
