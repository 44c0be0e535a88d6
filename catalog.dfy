/**
 * src/types/product.ts and src/features/products/api/getProducts.ts: the
 * product record and the two read operations over the static product list.
 * The list itself (src/features/products/data) is not part of this model and
 * is passed in as `catalog`; the Promise wrapping is dropped.
 */
module Catalog {
  import opened Wrappers

  datatype Product = Product(
    id: string,
    name: string,
    subtitle: string,
    category: string,
    price: int,
    color: string,
    bgColor: string,
    image: string,
    description: string,
    purchaseUrl: string,
    modelUrl: Option<string>)

  /** `getProducts()`: the whole list, in its own order. */
  function GetProducts(catalog: seq<Product>): (r: seq<Product>)
    ensures r == catalog
  {
    catalog
  }

  /** `getProductById(id)`: `products.find(p => p.id === id)`. */
  function GetProductById(catalog: seq<Product>, id: string): (r: Option<Product>)
    ensures r.Some? ==> r.value.id == id && r.value in catalog
    ensures r.None? <==> forall p :: p in catalog ==> p.id != id
    ensures r.Some? ==> (exists k :: 0 <= k < |catalog| && catalog[k] == r.value &&
                                    forall j :: 0 <= j < k ==> catalog[j].id != id)
  {
    if |catalog| == 0 then None
    else if catalog[0].id == id then Some(catalog[0])
    else
      var r := GetProductById(catalog[1..], id);
      assert r.Some? ==> (exists k :: 0 <= k < |catalog| && catalog[k] == r.value &&
                                      forall j :: 0 <= j < k ==> catalog[j].id != id)
      by {
        if r.Some? {
          var k :| 0 <= k < |catalog[1..]| && catalog[1..][k] == r.value &&
                   forall j :: 0 <= j < k ==> catalog[1..][j].id != id;
          assert catalog[k + 1] == r.value;
          forall j | 0 <= j < k + 1 ensures catalog[j].id != id {
            if j > 0 { assert catalog[j] == catalog[1..][j - 1]; }
          }
        }
      }
      r
  }

  /** With several products under one id, the first in list order wins. */
  lemma FirstMatchWins(catalog: seq<Product>, id: string, k: nat)
    requires k < |catalog| && catalog[k].id == id
    requires forall j :: 0 <= j < k ==> catalog[j].id != id
    ensures GetProductById(catalog, id) == Some(catalog[k])
  {
    var r := GetProductById(catalog, id);
    var k' :| 0 <= k' < |catalog| && catalog[k'] == r.value &&
              forall j :: 0 <= j < k' ==> catalog[j].id != id;
  }
}
