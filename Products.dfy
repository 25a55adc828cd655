/** The product catalog: a fixed list of products, loaded once, searched by id. */
module Products {
  import opened Wrappers

  /** An immutable catalog entry; only `id` and `price` matter to pricing. */
  datatype Product = Product(id: int, name: string, description: string, price: real, imageUrl: string)

  /** The five products the repository holds, in load order. */
  function LoadProducts(): (ps: seq<Product>)
    ensures |ps| == 5
    ensures forall i :: 0 <= i < |ps| ==> ps[i].id == i + 1 && ps[i].price >= 0.0
  {
    [ Product(1, "Laptop Pro 15\"", "High-performance laptop with 16GB RAM and 512GB SSD", 3499.99,
              "https://images.unsplash.com/photo-1496181133206-80ce9b88a853?w=300"),
      Product(2, "Wireless Mouse", "Ergonomic wireless mouse with precision tracking", 89.90,
              "https://images.unsplash.com/photo-1527864550417-7fd91fc51a46?w=300"),
      Product(3, "Mechanical Keyboard", "RGB mechanical keyboard with blue switches", 299.99,
              "https://images.unsplash.com/photo-1587829741301-dc798b83add3?w=300"),
      Product(4, "HD Webcam", "1080p webcam with built-in microphone", 249.00,
              "https://images.unsplash.com/photo-1593642632823-8f785ba67e45?w=300"),
      Product(5, "USB-C Hub", "7-in-1 USB-C hub with HDMI and card reader", 159.90,
              "https://images.unsplash.com/photo-1625948515291-69613efd103f?w=300") ]
  }

  /** The first product of `ps` whose id is `id`, or None: the meaning of
      the repository's linear search. */
  function Lookup(ps: seq<Product>, id: int): (r: Option<Product>)
    ensures r.Some? ==> r.value in ps && r.value.id == id
    ensures r.None? <==> forall p :: p in ps ==> p.id != id
  {
    if ps == [] then None
    else if ps[0].id == id then Some(ps[0])
    else Lookup(ps[1..], id)
  }

  /** A product preceded by no other product with its id is the one found. */
  lemma {:induction false} LookupFirst(ps: seq<Product>, id: int, k: nat)
    requires k < |ps| && ps[k].id == id
    requires forall j :: 0 <= j < k ==> ps[j].id != id
    ensures Lookup(ps, id) == Some(ps[k])
  {
    if k > 0 {
      assert ps[0].id != id;
      LookupFirst(ps[1..], id, k - 1);
    }
  }

  /** Conversely, what is found sits at the first position carrying `id`. */
  lemma {:induction false} LookupIsFirst(ps: seq<Product>, id: int)
    requires Lookup(ps, id).Some?
    ensures exists k :: 0 <= k < |ps| && ps[k] == Lookup(ps, id).value &&
                        forall j :: 0 <= j < k ==> ps[j].id != id
  {
    if ps[0].id != id {
      LookupIsFirst(ps[1..], id);
      var k :| 0 <= k < |ps[1..]| && ps[1..][k] == Lookup(ps[1..], id).value &&
                forall j :: 0 <= j < k ==> ps[1..][j].id != id;
      assert ps[k + 1] == Lookup(ps, id).value;
      assert forall j :: 0 <= j < k + 1 ==> ps[j].id != id by {
        forall j | 0 <= j < k + 1 ensures ps[j].id != id {
          if j > 0 { assert ps[j] == ps[1..][j - 1]; }
        }
      }
    } else {
      assert ps[0] == Lookup(ps, id).value;
    }
  }

  /** In the loaded catalog, ids 1..5 resolve to the product at position
      id - 1 and every other id resolves to nothing. */
  lemma CatalogLookup(id: int)
    ensures Lookup(LoadProducts(), id).Some? <==> 1 <= id <= 5
    ensures 1 <= id <= 5 ==> Lookup(LoadProducts(), id) == Some(LoadProducts()[id - 1])
  {
    var ps := LoadProducts();
    if 1 <= id <= 5 {
      LookupFirst(ps, id, id - 1);
    } else {
      forall p | p in ps ensures p.id != id {
        var i :| 0 <= i < |ps| && ps[i] == p;
      }
    }
  }

  /** The repository: `products` is assigned once, by the constructor, and
      never again, so lookups leave it as it was. */
  class ProductRepository {
    const products: seq<Product>

    constructor ()
      ensures products == LoadProducts()
    {
      products := LoadProducts();
    }

    /** The catalog exactly as loaded, in load order. */
    method GetAllProducts() returns (ps: seq<Product>)
      ensures ps == products
    {
      ps := products;
    }

    /** Linear search with early return; None stands for PHP's null. */
    method FindProductById(id: int) returns (r: Option<Product>)
      ensures r == Lookup(products, id)
      ensures r.Some? ==> r.value in products && r.value.id == id
      ensures r.None? <==> forall p :: p in products ==> p.id != id
    {
      var i := 0;
      while i < |products|
        invariant 0 <= i <= |products|
        invariant forall j :: 0 <= j < i ==> products[j].id != id
      {
        if products[i].id == id {
          LookupFirst(products, id, i);
          return Some(products[i]);
        }
        i := i + 1;
      }
      r := None;
    }
  }
}
