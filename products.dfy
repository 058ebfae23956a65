/**
 * The product table and its service (server/src/modules/product/product.service.ts,
 * entity server/src/modules/product/entities/product.entity.ts). A product
 * keeps the id of its creator, the non-nullable `creator` relation.
 */
module Products {
  import opened Base
  import Users
  import Tables

  /** A product row; `price` is a `double precision` column, copied and never computed on. */
  datatype Product = Product(id: string, title: string, description: string, price: real, creatorId: string)

  /** The fields a client supplies for a product. */
  datatype ProductDto = ProductDto(title: string, description: string, price: real)

  /** A product as `find()` returns it: the `creator` relation is not loaded. */
  datatype Listing = Listing(id: string, title: string, description: string, price: real)

  const ProductNotFound: HttpError := NotFound("Product not found")
  const CreateFailed: HttpError := BadRequest("Failed to create product")

  function Listed(p: Product): Listing
  {
    Listing(p.id, p.title, p.description, p.price)
  }

  /** The product after `updateProduct` assigns the DTO's title, description and price. */
  function Revised(p: Product, dto: ProductDto): Product
  {
    p.(title := dto.title, description := dto.description, price := dto.price)
  }

  /**
   * A revision keeps the product's id and creator, so it never changes who
   * owns a product; the last revision wins; and revising with a product's own
   * fields leaves it as it is.
   */
  lemma RevisedLaws(p: Product, a: ProductDto, b: ProductDto)
    ensures Revised(p, a).id == p.id && Revised(p, a).creatorId == p.creatorId
    ensures Listed(Revised(p, a)) == Listing(p.id, a.title, a.description, a.price)
    ensures Revised(Revised(p, a), b) == Revised(p, b)
    ensures Revised(p, ProductDto(p.title, p.description, p.price)) == p
  {
  }

  /** Each product is stored under its own id. */
  predicate WellFormed(rows: map<string, Product>)
  {
    forall k :: k in rows ==> rows[k].id == k
  }

  /** `ProductService` over the product table. */
  class ProductService {
    var rows: map<string, Product>

    predicate Valid()
      reads this
    {
      WellFormed(rows)
    }

    constructor()
      ensures Valid() && rows == map[]
    {
      rows := map[];
    }

    /** `createProduct`: stores the DTO's fields under a new id with the given creator, unless the save fails. */
    method CreateProduct(dto: ProductDto, creator: Users.User, uuid: string, fault: Option<string>)
      returns (r: Result<Product>)
      requires Valid() && uuid !in rows
      modifies this
      ensures Valid()
      ensures fault.Some? ==> r == Err(CreateFailed) && rows == old(rows)
      ensures fault.None? ==>
                && r.Ok? && r.value.id == uuid && r.value.creatorId == creator.id
                && Listed(r.value) == Listing(uuid, dto.title, dto.description, dto.price)
                && rows == old(rows)[uuid := r.value]
    {
      var product := Product(uuid, dto.title, dto.description, dto.price, creator.id);
      if fault.Some? {
        return Err(CreateFailed);
      }
      rows := rows[uuid := product];
      return Ok(product);
    }

    /** `getProductById`: the product stored under `id`, with its creator, or NotFound. */
    function GetProductById(id: string): (r: Result<Product>)
      reads this
      requires Valid()
      ensures r.Ok? <==> id in rows
      ensures r.Ok? ==> r.value.id == id && r.value in rows.Values
      ensures r.Err? ==> r.error == ProductNotFound
    {
      if id in rows then Ok(rows[id]) else Err(ProductNotFound)
    }

    /**
     * `updateProduct`: an unknown id is NotFound and nothing is written;
     * otherwise title, description and price take the DTO's values. A failing
     * save is not caught: its error reaches the caller as thrown.
     */
    method UpdateProduct(id: string, dto: ProductDto, fault: Option<string>) returns (r: Result<Product>)
      requires Valid()
      modifies this
      ensures Valid()
      ensures id !in old(rows) ==> r == Err(ProductNotFound)
      ensures id in old(rows) && fault.Some? ==> r == Err(QueryFailed(fault.value))
      ensures id in old(rows) && fault.None? ==> r == Ok(Revised(old(rows)[id], dto))
      ensures rows == if r.Ok? then old(rows)[id := r.value] else old(rows)
    {
      if id !in rows {
        return Err(ProductNotFound);
      }
      var product := rows[id];
      product := Revised(product, dto);
      if fault.Some? {
        return Err(QueryFailed(fault.value));
      }
      rows := rows[id := product];
      return Ok(product);
    }

    /** `deleteProduct`: an unknown id is NotFound; otherwise exactly that product goes. A failing delete is not caught. */
    method DeleteProduct(productId: string, fault: Option<string>) returns (r: Result<()>)
      requires Valid()
      modifies this
      ensures Valid()
      ensures productId !in old(rows) ==> r == Err(ProductNotFound)
      ensures productId in old(rows) && fault.Some? ==> r == Err(QueryFailed(fault.value))
      ensures r.Ok? <==> productId in old(rows) && fault.None?
      ensures rows == if r.Ok? then old(rows) - {productId} else old(rows)
    {
      if productId !in rows {
        return Err(ProductNotFound);
      }
      if fault.Some? {
        return Err(QueryFailed(fault.value));
      }
      rows := rows - {productId};
      return Ok(());
    }

    /** `getAllProducts`: every stored product once, without its creator, in no particular order. */
    method GetAllProducts() returns (listings: seq<Listing>)
      requires Valid()
      ensures |listings| == |rows|
      ensures forall k :: k in rows ==> Listed(rows[k]) in listings
      ensures forall l :: l in listings ==> l.id in rows && Listed(rows[l.id]) == l
    {
      var keys := Tables.FindAll(rows, (p: Product) => true);
      assert Tables.Matching(rows, (p: Product) => true) == rows.Keys;
      listings := [];
      var i := 0;
      while i < |keys|
        invariant 0 <= i <= |keys|
        invariant |listings| == i
        invariant forall j :: 0 <= j < i ==> keys[j] in rows && listings[j] == Listed(rows[keys[j]])
      {
        listings := listings + [Listed(rows[keys[i]])];
        i := i + 1;
      }
      forall k | k in rows
        ensures Listed(rows[k]) in listings
      {
        var j :| 0 <= j < |keys| && keys[j] == k;
        assert listings[j] == Listed(rows[k]);
      }
    }
  }
}
