/**
 * The product catalogue: create (a save that inserts or replaces), look up by
 * id, partial update and delete.
 *
 * A partial update carries one optional value per editable field; each value
 * that is present overwrites the stored one, each absent one leaves it. The
 * id and the creation time are not editable.
 */
module ProductService {
  import opened Model
  import opened Store

  /** The fields of an update request; `None` stands for a field the request left null. */
  datatype ProductPatch = ProductPatch(
    name: Option<string>,
    description: Option<string>,
    fullDescription: Option<string>,
    price: Option<int>,
    discount: Option<int>,
    image: Option<string>,
    images: Option<seq<string>>,
    category: Option<string>,
    brand: Option<string>,
    rating: Option<int>,
    reviews: Option<int>,
    stock: Option<int>,
    specifications: Option<seq<Specification>>,
    sellerId: Option<int>)

  /** The patch that leaves every field null. */
  const EmptyPatch := ProductPatch(None, None, None, None, None, None, None, None, None, None, None, None, None, None)

  /** The value a field takes: the patch's when present, else the stored one. */
  function Pick<T>(patch: Option<T>, stored: T): T {
    if patch.Some? then patch.value else stored
  }

  /** The stored product with every present patch field written over it. */
  function Merge(p: Product, patch: ProductPatch): (r: Product)
    ensures r.id == p.id && r.createdAt == p.createdAt
  {
    p.(name := Pick(patch.name, p.name),
       description := Pick(patch.description, p.description),
       fullDescription := Pick(patch.fullDescription, p.fullDescription),
       price := Pick(patch.price, p.price),
       discount := Pick(patch.discount, p.discount),
       image := Pick(patch.image, p.image),
       images := Pick(patch.images, p.images),
       category := Pick(patch.category, p.category),
       brand := Pick(patch.brand, p.brand),
       rating := Pick(patch.rating, p.rating),
       reviews := Pick(patch.reviews, p.reviews),
       stock := Pick(patch.stock, p.stock),
       specifications := Pick(patch.specifications, p.specifications),
       sellerId := Pick(patch.sellerId, p.sellerId))
  }

  /** An all-null patch changes nothing. */
  lemma EmptyPatchIsIdentity(p: Product)
    ensures Merge(p, EmptyPatch) == p
  {
  }

  /** Applying a patch twice is applying it once. */
  lemma MergeIdempotent(p: Product, patch: ProductPatch)
    ensures Merge(Merge(p, patch), patch) == Merge(p, patch)
  {
  }

  /** The patch whose fields are `b`'s where present, else `a`'s. */
  function Then(a: ProductPatch, b: ProductPatch): ProductPatch {
    ProductPatch(
      if b.name.Some? then b.name else a.name,
      if b.description.Some? then b.description else a.description,
      if b.fullDescription.Some? then b.fullDescription else a.fullDescription,
      if b.price.Some? then b.price else a.price,
      if b.discount.Some? then b.discount else a.discount,
      if b.image.Some? then b.image else a.image,
      if b.images.Some? then b.images else a.images,
      if b.category.Some? then b.category else a.category,
      if b.brand.Some? then b.brand else a.brand,
      if b.rating.Some? then b.rating else a.rating,
      if b.reviews.Some? then b.reviews else a.reviews,
      if b.stock.Some? then b.stock else a.stock,
      if b.specifications.Some? then b.specifications else a.specifications,
      if b.sellerId.Some? then b.sellerId else a.sellerId)
  }

  /** Two updates in a row are one update with the later patch winning field by field. */
  lemma MergeCompose(p: Product, a: ProductPatch, b: ProductPatch)
    ensures Merge(Merge(p, a), b) == Merge(p, Then(a, b))
  {
  }

  /**
   * Field by field, for all fourteen editable fields: a present value
   * overwrites the stored one and an absent one keeps it; the id and the
   * creation time are never touched.
   */
  lemma MergeFieldwise(p: Product, patch: ProductPatch)
    ensures Merge(p, patch).id == p.id && Merge(p, patch).createdAt == p.createdAt
    ensures patch.name.Some? ==> Merge(p, patch).name == patch.name.value
    ensures patch.name.None? ==> Merge(p, patch).name == p.name
    ensures patch.description.Some? ==> Merge(p, patch).description == patch.description.value
    ensures patch.description.None? ==> Merge(p, patch).description == p.description
    ensures patch.fullDescription.Some? ==> Merge(p, patch).fullDescription == patch.fullDescription.value
    ensures patch.fullDescription.None? ==> Merge(p, patch).fullDescription == p.fullDescription
    ensures patch.price.Some? ==> Merge(p, patch).price == patch.price.value
    ensures patch.price.None? ==> Merge(p, patch).price == p.price
    ensures patch.discount.Some? ==> Merge(p, patch).discount == patch.discount.value
    ensures patch.discount.None? ==> Merge(p, patch).discount == p.discount
    ensures patch.image.Some? ==> Merge(p, patch).image == patch.image.value
    ensures patch.image.None? ==> Merge(p, patch).image == p.image
    ensures patch.images.Some? ==> Merge(p, patch).images == patch.images.value
    ensures patch.images.None? ==> Merge(p, patch).images == p.images
    ensures patch.category.Some? ==> Merge(p, patch).category == patch.category.value
    ensures patch.category.None? ==> Merge(p, patch).category == p.category
    ensures patch.brand.Some? ==> Merge(p, patch).brand == patch.brand.value
    ensures patch.brand.None? ==> Merge(p, patch).brand == p.brand
    ensures patch.rating.Some? ==> Merge(p, patch).rating == patch.rating.value
    ensures patch.rating.None? ==> Merge(p, patch).rating == p.rating
    ensures patch.reviews.Some? ==> Merge(p, patch).reviews == patch.reviews.value
    ensures patch.reviews.None? ==> Merge(p, patch).reviews == p.reviews
    ensures patch.stock.Some? ==> Merge(p, patch).stock == patch.stock.value
    ensures patch.stock.None? ==> Merge(p, patch).stock == p.stock
    ensures patch.specifications.Some? ==> Merge(p, patch).specifications == patch.specifications.value
    ensures patch.specifications.None? ==> Merge(p, patch).specifications == p.specifications
    ensures patch.sellerId.Some? ==> Merge(p, patch).sellerId == patch.sellerId.value
    ensures patch.sellerId.None? ==> Merge(p, patch).sellerId == p.sellerId
  {
  }

  /** `getProductById`. */
  function GetProductById(db: Database, id: ProductKey): (r: Option<Product>)
    reads db
    ensures r.Some? <==> id in db.products
    ensures r.Some? ==> r.value == db.products[id]
    ensures db.Valid() && r.Some? ==> r.value.id == id
  {
    if id in db.products then Some(db.products[id]) else None
  }

  /** `createProduct`: saves the product under its own id, replacing any row there. */
  method CreateProduct(db: Database, p: Product) returns (r: Product)
    requires db.Valid()
    modifies db
    ensures db.Valid()
    ensures r == p
    ensures db.State() == old(db.State()).(products := old(db.products)[p.id := p])
    ensures GetProductById(db, p.id) == Some(p)
  {
    ProductsChangeKeepsValid(db.State(), db.products[p.id := p]);
    db.products := db.products[p.id := p];
    r := p;
  }

  /** Replacing or adding products keyed by their own ids keeps the tables valid. */
  lemma ProductsChangeKeepsValid(t: Tables, products: map<ProductKey, Product>)
    requires TablesValid(t)
    requires t.products.Keys <= products.Keys && ProductsKeyed(products)
    ensures TablesValid(t.(products := products))
  {
    var t' := t.(products := products);
    forall v | v in t'.carts
      ensures CartValid(t'.carts[v], v, t')
    {
      assert CartValid(t.carts[v], v, t);
    }
  }

  /** `updateProduct`: every present field of the patch written over the stored product. */
  method UpdateProduct(db: Database, id: ProductKey, patch: ProductPatch) returns (r: Result<Product>)
    requires db.Valid()
    modifies db
    ensures db.Valid()
    ensures var t := old(db.State());
      if id !in t.products then r == Err(ProductNotFoundWithId(id)) && db.State() == t
      else
        && r == Ok(Merge(t.products[id], patch))
        && db.State() == t.(products := t.products[id := r.value])
  {
    if id !in db.products {
      return Err(ProductNotFoundWithId(id));
    }
    var p := db.products[id];
    p := p.(name := Pick(patch.name, p.name));
    p := p.(description := Pick(patch.description, p.description));
    p := p.(fullDescription := Pick(patch.fullDescription, p.fullDescription));
    p := p.(price := Pick(patch.price, p.price));
    p := p.(discount := Pick(patch.discount, p.discount));
    p := p.(image := Pick(patch.image, p.image));
    p := p.(images := Pick(patch.images, p.images));
    p := p.(category := Pick(patch.category, p.category));
    p := p.(brand := Pick(patch.brand, p.brand));
    p := p.(rating := Pick(patch.rating, p.rating));
    p := p.(reviews := Pick(patch.reviews, p.reviews));
    p := p.(stock := Pick(patch.stock, p.stock));
    p := p.(specifications := Pick(patch.specifications, p.specifications));
    p := p.(sellerId := Pick(patch.sellerId, p.sellerId));
    ProductsChangeKeepsValid(db.State(), db.products[id := p]);
    db.products := db.products[id := p];
    r := Ok(p);
  }

  /** Some cart line or wishlist row still points at product `id`. */
  predicate Referenced(t: Tables, id: ProductKey) {
    || (exists u, i :: u in t.carts && 0 <= i < |t.carts[u].items| && t.carts[u].items[i].productId == id)
    || (exists i :: 0 <= i < |t.wishlist| && t.wishlist[i].productId == id)
  }

  /**
   * `deleteProduct`: removes the row; an id that is not stored is no change.
   * The store refuses to delete a product a cart line or a wishlist row still
   * references.
   */
  method DeleteProduct(db: Database, id: ProductKey) returns (r: Result<()>)
    requires db.Valid()
    modifies db
    ensures db.Valid()
    ensures var t := old(db.State());
      if id in t.products && Referenced(t, id) then r == Err(ReferencedProduct) && db.State() == t
      else r == Ok(()) && db.State() == t.(products := t.products - {id})
    ensures r.Ok? ==> GetProductById(db, id) == None
  {
    if id in db.products && Referenced(db.State(), id) {
      return Err(ReferencedProduct);
    }
    var t := db.State();
    var t' := t.(products := t.products - {id});
    forall v | v in t'.carts
      ensures CartValid(t'.carts[v], v, t')
    {
      assert CartValid(t.carts[v], v, t);
    }
    db.products := db.products - {id};
    r := Ok(());
  }
}
