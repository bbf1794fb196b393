/**
 * The product catalogue store: `ProductsProvider` in src/context/ProductsContext.tsx and
 * its JavaScript twin src/context/ProductsContext.jsx, which run the same logic.
 *
 * The store owns one list of products. `addProduct` gives the new product the id
 * "largest id so far (or 0) plus one" and puts it at the FRONT of the list;
 * `updateProduct` shallow-merges a patch into every product with the id and recomputes
 * the status only when the patch carries a stock; `deleteProduct` filters the id out;
 * `getProduct` returns the first product with the id.
 */
module Catalog {
  import opened Wrappers

  // ---------------------------------------------------------------------------
  // Data model
  // ---------------------------------------------------------------------------

  /** The three status labels the store writes (they are Spanish in the source). */
  const Activo: string := "Activo"
  const BajoStock: string := "Bajo Stock"
  const Agotado: string := "Agotado"

  /**
   * One catalogue item. Optional keys are `Option`s; `category` exists only in the
   * JavaScript twin's seed and is `None` in the TypeScript one. Prices are copied
   * through untouched, so `real` stands for JavaScript's number here.
   */
  datatype Product = Product(
    id: int,
    name: string,
    description: Option<string>,
    sku: Option<string>,
    price: real,
    stock: int,
    status: string,
    image: Option<string>,
    images: Option<seq<string>>,
    category: Option<string>)

  /** The argument of `addProduct`: a product without `id` and `status`. */
  datatype ProductInput = ProductInput(
    name: string,
    description: Option<string>,
    sku: Option<string>,
    price: real,
    stock: int,
    image: Option<string>,
    images: Option<seq<string>>,
    category: Option<string>)

  /**
   * The argument of `updateProduct`: any subset of the fields except `id`.
   * The outer `None` means the key is absent from the patch object. The optional keys
   * have a second layer: `Some(None)` is a key present with the value `undefined`,
   * which the spread copies over the old value.
   */
  datatype Patch = Patch(
    name: Option<string>,
    description: Option<Option<string>>,
    sku: Option<Option<string>>,
    price: Option<real>,
    stock: Option<int>,
    status: Option<string>,
    image: Option<Option<string>>,
    images: Option<Option<seq<string>>>,
    category: Option<Option<string>>)

  /** The patch with no keys at all (`{}`). */
  const EmptyPatch: Patch := Patch(None, None, None, None, None, None, None, None, None)

  // ---------------------------------------------------------------------------
  // Status derivation
  // ---------------------------------------------------------------------------

  /**
   * `getStatus`: 0 is sold out, up to 5 is low stock, more is active. There is no
   * guard against negative stock, which therefore reads as low stock.
   */
  function GetStatus(stock: int): (r: string)
    ensures r == Agotado <==> stock == 0
    ensures r == BajoStock <==> stock != 0 && stock <= 5
    ensures r == Activo <==> stock > 5
    ensures r in {Activo, BajoStock, Agotado}
  {
    if stock == 0 then Agotado
    else if stock <= 5 then BajoStock
    else Activo
  }

  /** The product's status is the one its stock derives. */
  predicate StatusConsistent(p: Product) {
    p.status == GetStatus(p.stock)
  }

  // ---------------------------------------------------------------------------
  // Id assignment
  // ---------------------------------------------------------------------------

  /** The set of ids in a list of products. */
  function Ids(s: seq<Product>): set<int> {
    set p | p in s :: p.id
  }

  /** No two positions of the list carry the same id. */
  predicate UniqueIds(s: seq<Product>) {
    forall i, j :: 0 <= i < j < |s| ==> s[i].id != s[j].id
  }

  /**
   * `Math.max(...products.map((p) => p.id), 0)`: the largest id, with 0 as the floor,
   * so the empty list gives 0 and negative ids never win.
   */
  function MaxId(s: seq<Product>): (m: int)
    ensures m >= 0
    ensures forall p :: p in s ==> p.id <= m
    ensures m == 0 || exists p :: p in s && p.id == m
  {
    if s == [] then 0
    else
      var rest := MaxId(s[1..]);
      assert forall p :: p in s[1..] ==> p in s;
      if s[0].id > rest then s[0].id else rest
  }

  /** The id `addProduct` assigns: maximum plus one (not a counter; ids are reused). */
  function NextId(s: seq<Product>): int {
    MaxId(s) + 1
  }

  /** A fresh id: strictly above every existing id, and 1 for an empty catalogue. */
  lemma NextIdFresh(s: seq<Product>)
    ensures forall p :: p in s ==> p.id < NextId(s)
    ensures NextId(s) >= 1
    ensures s == [] ==> NextId(s) == 1
    ensures NextId(s) !in Ids(s)
  {
  }

  // ---------------------------------------------------------------------------
  // The three list transformations and the lookup
  // ---------------------------------------------------------------------------

  /** `{ ...product, id: newId, status: getStatus(product.stock) }`. */
  function NewProduct(input: ProductInput, id: int): (p: Product)
    ensures p.id == id && StatusConsistent(p)
    ensures p.name == input.name && p.description == input.description && p.sku == input.sku
    ensures p.price == input.price && p.stock == input.stock
    ensures p.image == input.image && p.images == input.images && p.category == input.category
  {
    Product(id, input.name, input.description, input.sku, input.price, input.stock,
            GetStatus(input.stock), input.image, input.images, input.category)
  }

  /** `[newProduct, ...prev]`: the list after `addProduct`. */
  function Added(s: seq<Product>, input: ProductInput): seq<Product> {
    [NewProduct(input, NextId(s))] + s
  }

  /**
   * The shallow merge `{ ...p, ...updates }`, followed by the status recomputation
   * when `updates.stock !== undefined`. A status in the patch is kept only when the
   * patch has no stock; the id never changes.
   */
  function Merge(p: Product, u: Patch): (r: Product)
    ensures r.id == p.id
    ensures r.name == u.name.GetOr(p.name)
    ensures r.description == u.description.GetOr(p.description)
    ensures r.sku == u.sku.GetOr(p.sku)
    ensures r.price == u.price.GetOr(p.price)
    ensures r.stock == u.stock.GetOr(p.stock)
    ensures r.image == u.image.GetOr(p.image)
    ensures r.images == u.images.GetOr(p.images)
    ensures r.category == u.category.GetOr(p.category)
    ensures u.stock.Some? ==> StatusConsistent(r)
    ensures u.stock.None? ==> r.status == u.status.GetOr(p.status)
  {
    var merged := Product(
      p.id,
      u.name.GetOr(p.name),
      u.description.GetOr(p.description),
      u.sku.GetOr(p.sku),
      u.price.GetOr(p.price),
      u.stock.GetOr(p.stock),
      u.status.GetOr(p.status),
      u.image.GetOr(p.image),
      u.images.GetOr(p.images),
      u.category.GetOr(p.category));
    if u.stock.Some? then merged.(status := GetStatus(u.stock.value)) else merged
  }

  /** `prev.map((p) => p.id === id ? merge(p) : p)`: the list after `updateProduct`. */
  function Updated(s: seq<Product>, id: int, u: Patch): (r: seq<Product>)
    ensures |r| == |s|
    ensures forall i :: 0 <= i < |s| ==> r[i] == if s[i].id == id then Merge(s[i], u) else s[i]
  {
    if s == [] then []
    else [if s[0].id == id then Merge(s[0], u) else s[0]] + Updated(s[1..], id, u)
  }

  /** `prev.filter((p) => p.id !== id)`: the list after `deleteProduct`. */
  function Without(s: seq<Product>, id: int): (r: seq<Product>)
    ensures forall p :: p in r <==> p in s && p.id != id
    ensures |r| <= |s|
  {
    if s == [] then []
    else if s[0].id != id then [s[0]] + Without(s[1..], id)
    else Without(s[1..], id)
  }

  /** `products.find((p) => p.id === id)`: the first product with the id, if any. */
  function Find(s: seq<Product>, id: int): (r: Option<Product>)
    ensures r.None? <==> forall p :: p in s ==> p.id != id
    ensures r.Some? ==> r.value in s && r.value.id == id
  {
    if s == [] then None
    else if s[0].id == id then Some(s[0])
    else Find(s[1..], id)
  }

  // ---------------------------------------------------------------------------
  // Properties of addProduct
  // ---------------------------------------------------------------------------

  /** The new product is at the front, with the fresh id; the old list follows unchanged. */
  lemma AddPrepends(s: seq<Product>, input: ProductInput)
    ensures |Added(s, input)| == |s| + 1
    ensures Added(s, input)[0] == NewProduct(input, NextId(s))
    ensures Added(s, input)[1..] == s
    ensures forall p :: p in s ==> p.id < Added(s, input)[0].id
  {
  }

  /** Adding keeps ids unique, since the new id is above all old ones. */
  lemma AddKeepsIdsUnique(s: seq<Product>, input: ProductInput)
    requires UniqueIds(s)
    ensures UniqueIds(Added(s, input))
  {
  }

  /** `getProduct(newId)` right after `addProduct` returns the new product. */
  lemma GetAfterAdd(s: seq<Product>, input: ProductInput)
    ensures Find(Added(s, input), NextId(s)) == Some(NewProduct(input, NextId(s)))
  {
  }

  /**
   * Max-plus-one reuses ids: deleting the product just added gives back the old list,
   * and the next `addProduct` receives the same id again.
   */
  lemma DeleteAfterAddReusesId(s: seq<Product>, input: ProductInput)
    ensures Without(Added(s, input), NextId(s)) == s
    ensures NextId(Without(Added(s, input), NextId(s))) == NextId(s)
  {
    NextIdFresh(s);
    WithoutAbsent(s, NextId(s));
  }

  // ---------------------------------------------------------------------------
  // Properties of updateProduct
  // ---------------------------------------------------------------------------

  /** An update of an id no product has leaves the list as it was (no error). */
  lemma UpdateAbsentIsNoop(s: seq<Product>, id: int, u: Patch)
    requires id !in Ids(s)
    ensures Updated(s, id, u) == s
  {
  }

  /** Updating never changes any id, so the id set and uniqueness are kept. */
  lemma UpdateKeepsIds(s: seq<Product>, id: int, u: Patch)
    ensures forall i :: 0 <= i < |s| ==> Updated(s, id, u)[i].id == s[i].id
    ensures Ids(Updated(s, id, u)) == Ids(s)
    ensures UniqueIds(s) ==> UniqueIds(Updated(s, id, u))
  {
  }

  /**
   * After an update with a stock, every product with that id carries the status its
   * new stock derives; after an update without one, the statuses follow the patch or
   * stay as they were.
   */
  lemma UpdateStatus(s: seq<Product>, id: int, u: Patch, i: int)
    requires 0 <= i < |s| && s[i].id == id
    ensures u.stock.Some? ==> Updated(s, id, u)[i].status == GetStatus(u.stock.value)
    ensures u.stock.None? && u.status.None? ==> Updated(s, id, u)[i].status == s[i].status
  {
  }

  /** `getProduct(id)` after `updateProduct(id, u)` returns the first such product, merged. */
  lemma {:induction false} GetAfterUpdate(s: seq<Product>, id: int, u: Patch)
    ensures Find(s, id).None? ==> Find(Updated(s, id, u), id).None?
    ensures Find(s, id).Some? ==> Find(Updated(s, id, u), id) == Some(Merge(Find(s, id).value, u))
  {
    if s != [] {
      GetAfterUpdate(s[1..], id, u);
      assert Updated(s, id, u)[1..] == Updated(s[1..], id, u);
    }
  }

  /**
   * A patch whose `image` key is present but `undefined` (the product editor sends
   * `imagePreviews[0] || undefined`, so after every preview is removed) clears the
   * image of the product, where a patch without the key keeps it.
   */
  lemma UndefinedImageClears(s: seq<Product>, id: int, u: Patch)
    requires Find(s, id).Some?
    ensures u.image == Some(None) ==> Find(Updated(s, id, u), id).value.image == None
    ensures u.image == None ==> Find(Updated(s, id, u), id).value.image == Find(s, id).value.image
  {
    GetAfterUpdate(s, id, u);
  }

  /** The empty patch changes nothing. */
  lemma UpdateEmptyIsNoop(s: seq<Product>, id: int)
    ensures Updated(s, id, EmptyPatch) == s
  {
  }

  // ---------------------------------------------------------------------------
  // Properties of deleteProduct and getProduct
  // ---------------------------------------------------------------------------

  /** Filtering distributes over concatenation: the survivors keep their order. */
  lemma {:induction false} WithoutAppend(a: seq<Product>, b: seq<Product>, id: int)
    ensures Without(a + b, id) == Without(a, id) + Without(b, id)
  {
    if a == [] {
      assert a + b == b;
    } else {
      assert (a + b)[0] == a[0];
      assert (a + b)[1..] == a[1..] + b;
      WithoutAppend(a[1..], b, id);
    }
  }

  /** Deleting an id no product has leaves the list as it was. */
  lemma {:induction false} WithoutAbsent(s: seq<Product>, id: int)
    requires forall p :: p in s ==> p.id != id
    ensures Without(s, id) == s
  {
    if s != [] {
      assert s[0] in s;
      assert forall p :: p in s[1..] ==> p in s;
      WithoutAbsent(s[1..], id);
      assert [s[0]] + s[1..] == s;
    }
  }

  /** Deleting twice is deleting once. */
  lemma DeleteIdempotent(s: seq<Product>, id: int)
    ensures Without(Without(s, id), id) == Without(s, id)
  {
  }

  /** How many products carry the id. */
  function CountId(s: seq<Product>, id: int): nat {
    if s == [] then 0 else (if s[0].id == id then 1 else 0) + CountId(s[1..], id)
  }

  /** Deleting removes exactly the products with that id: the length drops by their number. */
  lemma {:induction false} DeleteCount(s: seq<Product>, id: int)
    ensures |Without(s, id)| == |s| - CountId(s, id)
  {
    if s != [] {
      DeleteCount(s[1..], id);
    }
  }

  /** Deleting keeps ids unique. */
  lemma {:induction false} DeleteKeepsIdsUnique(s: seq<Product>, id: int)
    requires UniqueIds(s)
    ensures UniqueIds(Without(s, id))
  {
    if s != [] {
      DeleteKeepsIdsUnique(s[1..], id);
      var t := Without(s[1..], id);
      if s[0].id != id {
        var r := [s[0]] + t;
        forall i, j | 0 <= i < j < |r| ensures r[i].id != r[j].id {
          if i == 0 {
            assert r[j] in t;
            assert r[j] in s[1..];
            var k :| 0 <= k < |s[1..]| && s[1..][k] == r[j];
            assert s[k + 1] == r[j];
          } else {
            assert r[i] == t[i - 1] && r[j] == t[j - 1];
          }
        }
      }
    }
  }

  /** After `deleteProduct(id)`, `getProduct(id)` finds nothing. */
  lemma GetAfterDelete(s: seq<Product>, id: int)
    ensures Find(Without(s, id), id) == None
  {
  }

  /** `find` returns the FIRST product with the id: every earlier one has another id. */
  lemma {:induction false} FindIsFirst(s: seq<Product>, id: int)
    requires Find(s, id).Some?
    ensures exists i :: 0 <= i < |s| && s[i] == Find(s, id).value &&
                        forall j :: 0 <= j < i ==> s[j].id != id
  {
    if s[0].id != id {
      FindIsFirst(s[1..], id);
      var i :| 0 <= i < |s[1..]| && s[1..][i] == Find(s[1..], id).value &&
               forall j :: 0 <= j < i ==> s[1..][j].id != id;
      assert s[i + 1] == Find(s, id).value;
      forall j | 0 <= j < i + 1 ensures s[j].id != id {
        if j > 0 { assert s[j] == s[1..][j - 1]; }
      }
    } else {
      assert s[0] == Find(s, id).value;
    }
  }

  // ---------------------------------------------------------------------------
  // The seeds
  // ---------------------------------------------------------------------------

  /** `initialProducts` of the TypeScript store. */
  function InitialProductsTs(): seq<Product> {
    [ Product(1, "Cámara Vintage 35mm", None, Some("CAM-001"), 299.99, 5, Activo, None, None, None),
      Product(2, "Lente 50mm f/1.8", None, Some("LEN-001"), 149.99, 12, Activo, None, None, None),
      Product(3, "Trípode Profesional", None, Some("TRI-001"), 89.99, 0, Agotado, None, None, None),
      Product(4, "Flash Externo", None, Some("FLA-001"), 199.99, 3, BajoStock, None, None, None) ]
  }

  /** `initialProducts` of the JavaScript store: the same four, each with a category. */
  function InitialProductsJs(): seq<Product> {
    [ Product(1, "Cámara Vintage 35mm", None, Some("CAM-001"), 299.99, 5, Activo, None, None, Some("Cámaras")),
      Product(2, "Lente 50mm f/1.8", None, Some("LEN-001"), 149.99, 12, Activo, None, None, Some("Lentes")),
      Product(3, "Trípode Profesional", None, Some("TRI-001"), 89.99, 0, Agotado, None, None, Some("Accesorios")),
      Product(4, "Flash Externo", None, Some("FLA-001"), 199.99, 3, BajoStock, None, None, Some("Iluminación")) ]
  }

  /**
   * Both seeds have unique ids and the next id is 5, but neither is status-consistent:
   * product 1 has stock 5 and is labelled active, where `getStatus(5)` is low stock.
   */
  lemma SeedsFacts()
    ensures UniqueIds(InitialProductsTs()) && UniqueIds(InitialProductsJs())
    ensures NextId(InitialProductsTs()) == 5 && NextId(InitialProductsJs()) == 5
    ensures !StatusConsistent(InitialProductsTs()[0]) && !StatusConsistent(InitialProductsJs()[0])
  {
    SeedMaxId(InitialProductsTs());
    SeedMaxId(InitialProductsJs());
  }

  /** Any four products with ids 1 to 4 in that order have unique ids and maximum 4. */
  lemma SeedMaxId(s: seq<Product>)
    requires |s| == 4 && s[0].id == 1 && s[1].id == 2 && s[2].id == 3 && s[3].id == 4
    ensures MaxId(s) == 4 && UniqueIds(s)
  {
  }

  // ---------------------------------------------------------------------------
  // The store
  // ---------------------------------------------------------------------------

  /** `ProductsProvider`: the `products` state and the operations that replace it. */
  class ProductStore {
    var products: seq<Product>

    /**
     * `useState(initialProducts)`, with the seed of the JavaScript twin or of the
     * TypeScript one. Either way the store starts with unique ids.
     */
    constructor (javaScript: bool)
      ensures products == if javaScript then InitialProductsJs() else InitialProductsTs()
      ensures UniqueIds(products)
    {
      var seed := if javaScript then InitialProductsJs() else InitialProductsTs();
      SeedMaxId(seed);
      products := seed;
    }

    /** `addProduct`: prepend a product with the next id and the derived status. */
    method AddProduct(input: ProductInput)
      modifies this
      ensures products == Added(old(products), input)
      ensures UniqueIds(old(products)) ==> UniqueIds(products)
    {
      if UniqueIds(products) {
        AddKeepsIdsUnique(products, input);
      }
      var newId := MaxId(products) + 1;
      products := [NewProduct(input, newId)] + products;
    }

    /** `updateProduct`: merge the patch into every product with the id. */
    method UpdateProduct(id: int, updates: Patch)
      modifies this
      ensures products == Updated(old(products), id, updates)
      ensures UniqueIds(old(products)) ==> UniqueIds(products)
      ensures id !in Ids(old(products)) ==> products == old(products)
    {
      UpdateKeepsIds(products, id, updates);
      if id !in Ids(products) {
        UpdateAbsentIsNoop(products, id, updates);
      }
      products := Updated(products, id, updates);
    }

    /** `deleteProduct`: keep the products whose id differs. */
    method DeleteProduct(id: int)
      modifies this
      ensures products == Without(old(products), id)
      ensures UniqueIds(old(products)) ==> UniqueIds(products)
      ensures Find(products, id) == None
    {
      if UniqueIds(products) {
        DeleteKeepsIdsUnique(products, id);
      }
      products := Without(products, id);
    }

    /** `getProduct`: the first product with the id, or `undefined`. */
    function GetProduct(id: int): (r: Option<Product>)
      reads this
      ensures r.None? <==> id !in Ids(products)
      ensures r.Some? ==> r.value in products && r.value.id == id
    {
      Find(products, id)
    }
  }
}
