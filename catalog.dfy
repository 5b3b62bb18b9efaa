/**
 * The catalog (controllers/product.js): input validation, creation and update of products,
 * the two-state archive/activate machine, and the active, by-name and by-price queries.
 */
module Catalog {
  import opened Records

  /** A stored product document; the collection is a map from `_id` to document. */
  datatype Product = Product(name: string, description: string, price: int, isActive: bool)

  /**
   * A price as the request carries it: missing (null, undefined or ""), something
   * `isNaN` rejects, or a number (prices are whole cents here).
   */
  datatype PriceField = Missing | NotANumber | Number(value: int)

  /** The body of a create or update request. */
  datatype ProductInput = ProductInput(name: Option<string>, description: Option<string>, price: PriceField)

  const PRODUCT_EXISTS := Failure(409, "Product already exists")
  const PRICE_NOT_NUMBER := Failure(400, "Price must be a number")
  const SAVE_PRODUCT_FAILED := Failure(500, "Internal server error saving product")
  const UPDATE_FAILED := Failure(500, "Error updating the product")
  const PRODUCT_NOT_FOUND := Failure(404, "Product not found")
  const PRODUCT_DOES_NOT_EXIST := Failure(404, "Product does not exist")
  const ALREADY_ARCHIVED := Failure(409, "Product is already archived")
  const ALREADY_ACTIVATED := Failure(409, "Product is already activated")
  const PRICES_NOT_NUMBERS := Failure(400, "Invalid input. Please provide valid numbers for minPrice and maxPrice.")
  const MIN_ABOVE_MAX := Failure(400, "Minimum price must be less than or equal to the maximum price")
  const NO_PRODUCT_IN_RANGE := Failure(404, "No products found matching the price range")

  /** `isDataValid`: name, description and price are all present. */
  predicate IsDataValid(req: ProductInput)
  {
    Present(req.name) && Present(req.description) && !req.price.Missing?
  }

  /** Some stored product already carries this name (`Product.findOne({ name })`). */
  predicate NameTaken(products: map<ProductId, Product>, name: string)
  {
    exists id :: id in products && products[id].name == name
  }

  /** Everything but the activation flag is the same. */
  predicate SameDetails(p: Product, q: Product)
  {
    p.name == q.name && p.description == q.description && p.price == q.price
  }

  /** The archive transition on one product: only an active product can be archived. */
  function Archive(p: Product): (r: Result<Product>)
    ensures r.Ok? <==> p.isActive
    ensures r.Ok? ==> !r.value.isActive && SameDetails(r.value, p)
    ensures r.Err? ==> r.failure == ALREADY_ARCHIVED
  {
    if p.isActive then Ok(p.(isActive := false)) else Err(ALREADY_ARCHIVED)
  }

  /** The activate transition on one product, the mirror image of `Archive`. */
  function Activate(p: Product): (r: Result<Product>)
    ensures r.Ok? <==> !p.isActive
    ensures r.Ok? ==> r.value.isActive && SameDetails(r.value, p)
    ensures r.Err? ==> r.failure == ALREADY_ACTIVATED
  {
    if !p.isActive then Ok(p.(isActive := true)) else Err(ALREADY_ACTIVATED)
  }

  /** Archiving twice: the first call succeeds and the second is refused with 409. */
  lemma ArchiveTwice(p: Product)
    requires p.isActive
    ensures Archive(p).Ok? && Archive(Archive(p).value) == Err(ALREADY_ARCHIVED)
  {
  }

  /** Activating twice: the first call succeeds and the second is refused with 409. */
  lemma ActivateTwice(p: Product)
    requires !p.isActive
    ensures Activate(p).Ok? && Activate(Activate(p).value) == Err(ALREADY_ACTIVATED)
  {
  }

  /** Archive followed by activate gives back the product exactly as it was. */
  lemma ArchiveThenActivate(p: Product)
    requires p.isActive
    ensures Archive(p).Ok? && Activate(Archive(p).value) == Ok(p)
  {
  }

  /** `retrieveActiveProducts`: `Product.find({ isActive: true })`. */
  function ActiveProducts(products: map<ProductId, Product>): (r: map<ProductId, Product>)
    ensures forall id :: id in r <==> id in products && products[id].isActive
    ensures forall id :: id in r ==> r[id] == products[id]
  {
    map id | id in products && products[id].isActive :: products[id]
  }

  /** `searchByName`: products whose name equals the requested one exactly, or 404 when none does. */
  function SearchByName(products: map<ProductId, Product>, name: Option<string>): (r: Result<map<ProductId, Product>>)
    ensures !Present(name) ==> r == Err(INVALID_INPUT)
    ensures Present(name) && !NameTaken(products, name.value) ==> r == Err(PRODUCT_DOES_NOT_EXIST)
    ensures Present(name) && NameTaken(products, name.value) ==>
      r.Ok? && |r.value| > 0 &&
      (forall id :: id in r.value <==> id in products && products[id].name == name.value) &&
      (forall id :: id in r.value ==> r.value[id] == products[id])
  {
    if !Present(name) then Err(INVALID_INPUT)
    else
      var found := map id | id in products && products[id].name == name.value :: products[id];
      if |found| == 0 then
        assert forall id :: id in products && products[id].name == name.value ==> id in found.Keys;
        Err(PRODUCT_DOES_NOT_EXIST)
      else
        Ok(found)
  }

  /** The inclusive range query `{ price: { $gte: min, $lte: max } }`; archived products are not excluded. */
  function InRange(products: map<ProductId, Product>, min: int, max: int): map<ProductId, Product>
  {
    map id | id in products && min <= products[id].price <= max :: products[id]
  }

  /**
   * `searchByPrice`: both bounds present, then both numeric, then `min <= max`; the
   * answer holds the products priced within the bounds inclusive, and 404 when there is none.
   */
  function SearchByPrice(products: map<ProductId, Product>, min: PriceField, max: PriceField): (r: Result<map<ProductId, Product>>)
    ensures min.Missing? || max.Missing? ==> r == Err(INVALID_INPUT)
    ensures !min.Missing? && !max.Missing? && (min.NotANumber? || max.NotANumber?) ==> r == Err(PRICES_NOT_NUMBERS)
    ensures min.Number? && max.Number? && min.value > max.value ==> r == Err(MIN_ABOVE_MAX)
    ensures r.Ok? ==>
      min.Number? && max.Number? && min.value <= max.value && |r.value| > 0 &&
      (forall id :: id in r.value <==> id in products && min.value <= products[id].price <= max.value) &&
      (forall id :: id in r.value ==> r.value[id] == products[id])
    ensures min.Number? && max.Number? && min.value <= max.value ==>
      (r.Ok? <==> exists id :: id in products && min.value <= products[id].price <= max.value) &&
      (r.Err? ==> r.failure == NO_PRODUCT_IN_RANGE)
  {
    if min.Missing? || max.Missing? then Err(INVALID_INPUT)
    else if min.NotANumber? || max.NotANumber? then Err(PRICES_NOT_NUMBERS)
    else if min.value > max.value then Err(MIN_ABOVE_MAX)
    else
      var found := InRange(products, min.value, max.value);
      if |found| == 0 then
        assert forall id :: id in products && min.value <= products[id].price <= max.value ==> id in found.Keys;
        Err(NO_PRODUCT_IN_RANGE)
      else
        Ok(found)
  }

  /** The `products` collection. */
  class ProductCollection {
    var products: map<ProductId, Product>

    constructor ()
      ensures products == map[]
    {
      products := map[];
    }

    /**
     * `createProduct`: invalid input (400), then a duplicate name (409), then a price `isNaN`
     * rejects (400); otherwise the product is stored active with exactly the given fields.
     * `newId` is the id the new document receives; saving under an id already taken fails (500).
     */
    method CreateProduct(req: ProductInput, newId: ProductId) returns (r: Result<Product>)
      modifies this
      ensures !IsDataValid(req) ==> r == Err(INVALID_INPUT)
      ensures IsDataValid(req) && NameTaken(old(products), req.name.value) ==> r == Err(PRODUCT_EXISTS)
      ensures IsDataValid(req) && !NameTaken(old(products), req.name.value) && req.price.NotANumber? ==>
        r == Err(PRICE_NOT_NUMBER)
      ensures IsDataValid(req) && !NameTaken(old(products), req.name.value) && req.price.Number? ==>
        if newId in old(products) then r == Err(SAVE_PRODUCT_FAILED)
        else r == Ok(Product(req.name.value, req.description.value, req.price.value, true))
      ensures r.Ok? ==> newId !in old(products) && products == old(products)[newId := r.value]
      ensures r.Err? ==> products == old(products)
    {
      if !IsDataValid(req) {
        return Err(INVALID_INPUT);
      }
      if NameTaken(products, req.name.value) {
        return Err(PRODUCT_EXISTS);
      }
      if req.price.NotANumber? {
        return Err(PRICE_NOT_NUMBER);
      }
      if newId in products {
        return Err(SAVE_PRODUCT_FAILED);
      }
      var product := Product(req.name.value, req.description.value, req.price.value, true);
      products := products[newId := product];
      r := Ok(product);
    }

    /**
     * `updateProduct`: all three fields are required; the name, description and price are
     * replaced and the activation flag is kept. A price the store cannot cast to a number
     * makes the update itself fail (500).
     */
    method UpdateProduct(id: ProductId, req: ProductInput) returns (r: Result<Product>)
      modifies this
      ensures !IsDataValid(req) ==> r == Err(INVALID_INPUT)
      ensures IsDataValid(req) && req.price.NotANumber? ==> r == Err(UPDATE_FAILED)
      ensures IsDataValid(req) && req.price.Number? && id !in old(products) ==> r == Err(PRODUCT_NOT_FOUND)
      ensures IsDataValid(req) && req.price.Number? && id in old(products) ==>
        r == Ok(Product(req.name.value, req.description.value, req.price.value, old(products)[id].isActive))
      ensures r.Ok? ==> products == old(products)[id := r.value]
      ensures r.Err? ==> products == old(products)
    {
      if !IsDataValid(req) {
        return Err(INVALID_INPUT);
      }
      if req.price.NotANumber? {
        return Err(UPDATE_FAILED);
      }
      if id !in products {
        return Err(PRODUCT_NOT_FOUND);
      }
      var updated := products[id].(name := req.name.value, description := req.description.value, price := req.price.value);
      products := products[id := updated];
      r := Ok(updated);
    }

    /** `archiveProduct`: 404 when absent, 409 when already archived, otherwise only the flag drops. */
    method ArchiveProduct(id: ProductId) returns (r: Result<Product>)
      modifies this
      ensures id !in old(products) ==> r == Err(PRODUCT_DOES_NOT_EXIST)
      ensures id in old(products) ==> r == Archive(old(products)[id])
      ensures r.Ok? ==> products == old(products)[id := r.value]
      ensures r.Err? ==> products == old(products)
    {
      if id !in products {
        return Err(PRODUCT_DOES_NOT_EXIST);
      }
      r := Archive(products[id]);
      if r.Ok? {
        products := products[id := r.value];
      }
    }

    /** `activateProduct`: 404 when absent, 409 when already active, otherwise only the flag rises. */
    method ActivateProduct(id: ProductId) returns (r: Result<Product>)
      modifies this
      ensures id !in old(products) ==> r == Err(PRODUCT_DOES_NOT_EXIST)
      ensures id in old(products) ==> r == Activate(old(products)[id])
      ensures r.Ok? ==> products == old(products)[id := r.value]
      ensures r.Err? ==> products == old(products)
    {
      if id !in products {
        return Err(PRODUCT_DOES_NOT_EXIST);
      }
      r := Activate(products[id]);
      if r.Ok? {
        products := products[id := r.value];
      }
    }
  }
}
