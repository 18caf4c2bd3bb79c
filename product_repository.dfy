/**
 * The product table and its repository. The table is keyed by `id`; the
 * document client and the table name become one map held by the repository.
 */
module ProductStore {
  import opened Common

  /** A catalogue entry; `price` is a whole number of cents. */
  datatype Product = Product(
    id: string,
    productName: string,
    code: string,
    price: int,
    model: string,
    productUrl: string)

  const ProductNotFound: string := "Product not found"

  /** The message DynamoDB gives when a `ConditionExpression` is not met. */
  const ConditionalCheckFailed: string := "The conditional request failed"

  /** The message of DynamoDB's validation error for a batch get naming a key twice. */
  const DuplicateKeys: string := "Provided list of item keys contains duplicates"

  /** Every stored item carries its own key, as every DynamoDB item does. */
  ghost predicate KeyedById(t: map<string, Product>)
  {
    forall id :: id in t ==> t[id].id == id
  }

  /** `items` holds every product of `t`, each once, and nothing else. */
  ghost predicate ListsAll(items: seq<Product>, t: map<string, Product>)
  {
    && (forall p :: p in items ==> p.id in t && t[p.id] == p)
    && (forall id :: id in t ==> t[id] in items)
    && Distinct(items)
  }

  /** The message of DynamoDB's validation error for a batch get naming no key. */
  const NoKeys: string := "1 validation error detected: Value at 'requestItems.1.member.keys' failed to satisfy constraint: Member must have length greater than or equal to 1"

  /**
   * DynamoDB accepts a batch get only when it names at least one key, no key
   * is empty and none is named twice.
   */
  predicate BatchGetAccepts(ids: seq<string>)
  {
    ids != [] && "" !in ids && Distinct(ids)
  }

  /** The message of the validation error a batch get DynamoDB refuses fails with. */
  function BatchGetError(ids: seq<string>): string
  {
    if ids == [] then NoKeys else if "" in ids then EmptyKeyValue("id") else DuplicateKeys
  }

  /** Every requested id is stored and none is requested twice. */
  ghost predicate AllResolvable(t: map<string, Product>, ids: seq<string>)
  {
    Distinct(ids) && forall i :: 0 <= i < |ids| ==> ids[i] in t
  }

  /**
   * What a batch get returns for `ids`: the stored product of every requested
   * id, in the order of the request, skipping ids that are not stored and ids
   * already requested earlier.
   */
  function Resolve(t: map<string, Product>, ids: seq<string>): seq<Product>
  {
    if ids == [] then []
    else
      var earlier := ids[..|ids| - 1];
      var id := ids[|ids| - 1];
      if id in t && id !in earlier then Resolve(t, earlier) + [t[id]] else Resolve(t, earlier)
  }

  /** The ids of `ids` that are stored, each once. */
  function FoundIds(t: map<string, Product>, ids: seq<string>): set<string>
  {
    set id | id in ids && id in t
  }

  /** Everything a batch get returns is the stored product of a requested id. */
  lemma {:induction false} ResolveSound(t: map<string, Product>, ids: seq<string>)
    requires KeyedById(t)
    ensures forall p :: p in Resolve(t, ids) ==> p.id in ids && p.id in t && t[p.id] == p
  {
    if ids != [] {
      ResolveSound(t, ids[..|ids| - 1]);
    }
  }

  /** Every requested id that is stored is answered. */
  lemma {:induction false} ResolveComplete(t: map<string, Product>, ids: seq<string>)
    ensures forall id :: id in ids && id in t ==> t[id] in Resolve(t, ids)
  {
    if ids != [] {
      var earlier := ids[..|ids| - 1];
      ResolveComplete(t, earlier);
      forall id | id in ids && id in t
        ensures t[id] in Resolve(t, ids)
      {
        if id !in earlier {
          assert id == ids[|ids| - 1];
        }
      }
    }
  }

  /** No product is returned twice. */
  lemma {:induction false} ResolveDistinct(t: map<string, Product>, ids: seq<string>)
    requires KeyedById(t)
    ensures Distinct(Resolve(t, ids))
  {
    if ids != [] {
      var earlier := ids[..|ids| - 1];
      ResolveDistinct(t, earlier);
      ResolveSound(t, earlier);
    }
  }

  /** A batch get returns exactly one product per distinct stored id requested. */
  lemma {:induction false} ResolveCount(t: map<string, Product>, ids: seq<string>)
    ensures |Resolve(t, ids)| == |FoundIds(t, ids)|
  {
    if ids != [] {
      var earlier := ids[..|ids| - 1];
      var id := ids[|ids| - 1];
      ResolveCount(t, earlier);
      assert ids == earlier + [id];
      if id in t && id !in earlier {
        assert FoundIds(t, ids) == FoundIds(t, earlier) + {id};
      } else {
        assert FoundIds(t, ids) == FoundIds(t, earlier);
      }
    }
  }

  /**
   * A batch get answers as many products as were requested exactly when
   * every requested id is stored and no id is requested twice.
   */
  lemma {:induction false} ResolveAllFound(t: map<string, Product>, ids: seq<string>)
    ensures |Resolve(t, ids)| <= |ids|
    ensures |Resolve(t, ids)| == |ids| <==> AllResolvable(t, ids)
  {
    if ids != [] {
      var earlier := ids[..|ids| - 1];
      var id := ids[|ids| - 1];
      ResolveAllFound(t, earlier);
      assert ids == earlier + [id];
      if AllResolvable(t, ids) {
        assert AllResolvable(t, earlier);
      }
      if |Resolve(t, ids)| == |ids| {
        assert id in t && id !in earlier;
        assert AllResolvable(t, earlier);
        forall i, j | 0 <= i < j < |ids| ensures ids[i] != ids[j] {
          if j == |ids| - 1 {
            assert ids[i] in earlier;
          } else {
            assert ids[i] == earlier[i] && ids[j] == earlier[j];
          }
        }
      }
    }
  }

  /**
   * On a batch get DynamoDB accepts, the answer is as long as the request
   * exactly when every requested id is stored: the order handler's count
   * check detects precisely the missing products.
   */
  lemma CountCheckFindsMissing(t: map<string, Product>, ids: seq<string>)
    requires BatchGetAccepts(ids)
    ensures |Resolve(t, ids)| == |ids| <==> forall i :: 0 <= i < |ids| ==> ids[i] in t
  {
    ResolveAllFound(t, ids);
  }

  class ProductRepository {
    /** The product table: the item stored under each `id`. */
    var table: map<string, Product>

    ghost predicate Valid()
      reads this
    {
      KeyedById(table)
    }

    /** A repository over a table that already holds `contents`. */
    constructor (contents: map<string, Product>)
      requires KeyedById(contents)
      ensures Valid() && table == contents
    {
      table := contents;
    }

    /** A scan: every stored product, each once, in the table's order. */
    method GetAllProducts() returns (items: seq<Product>)
      requires Valid()
      ensures ListsAll(items, table) && |items| == |table|
    {
      var ids := ScanWhere(table, (id: string) => true);
      items := [];
      var i := 0;
      while i < |ids|
        invariant 0 <= i <= |ids|
        invariant |items| == i
        invariant forall k :: 0 <= k < i ==> items[k] == table[ids[k]]
      {
        items := items + [table[ids[i]]];
        i := i + 1;
      }
      forall id | id in table ensures table[id] in items {
        var k :| 0 <= k < |ids| && ids[k] == id;
        assert items[k] == table[id];
      }
      assert |ids| == |table| by {
        assert table.Keys == set k | k in ids;
        DistinctCardinality(ids);
      }
    }

    /** A get by key: the stored product, or the error 'Product not found'. */
    method GetProductById(productId: string) returns (r: Result<Product>)
      requires Valid()
      ensures r.Ok? <==> productId in table
      ensures r.Ok? ==> r.value == table[productId] && r.value.id == productId
      ensures r.Err? ==> r.message == ProductNotFound
    {
      if productId in table {
        r := Ok(table[productId]);
      } else {
        r := Err(ProductNotFound);
      }
    }

    /**
     * A batch get of the keys built from `productIds`: rejected with a
     * validation error when there is no key or a key is empty or repeated,
     * and otherwise the stored products of the requested ids.
     */
    method GetProductsByIds(productIds: seq<string>) returns (r: Result<seq<Product>>)
      ensures r.Ok? <==> BatchGetAccepts(productIds)
      ensures r.Ok? ==> r.value == Resolve(table, productIds)
      ensures r.Err? ==> r.message == BatchGetError(productIds)
    {
      if productIds == [] {
        return Err(NoKeys);
      }
      if "" in productIds {
        return Err(EmptyKeyValue("id"));
      }
      if !Distinct(productIds) {
        return Err(DuplicateKeys);
      }
      var products := [];
      var i := 0;
      while i < |productIds|
        invariant 0 <= i <= |productIds|
        invariant products == Resolve(table, productIds[..i])
      {
        var id := productIds[i];
        assert productIds[..i + 1][..i] == productIds[..i];
        if id in table && id !in productIds[..i] {
          products := products + [table[id]];
        }
        i := i + 1;
      }
      assert productIds[..i] == productIds;
      r := Ok(products);
    }

    /** Stores `product` under the fresh id that replaces the one it came with. */
    method CreateProduct(product: Product, freshId: string) returns (created: Product)
      requires Valid()
      requires freshId !in table
      modifies this
      ensures Valid()
      ensures created == product.(id := freshId)
      ensures table == old(table)[freshId := created]
    {
      created := product.(id := freshId);
      table := table[freshId := created];
    }

    /** A delete returning the old item: the pre-delete snapshot, or 'Product not found'. */
    method DeleteProduct(productId: string) returns (r: Result<Product>)
      requires Valid()
      modifies this
      ensures Valid()
      ensures productId in old(table) ==> r == Ok(old(table)[productId]) && table == old(table) - {productId}
      ensures productId !in old(table) ==> r == Err(ProductNotFound) && table == old(table)
    {
      if productId in table {
        r := Ok(table[productId]);
        table := table - {productId};
      } else {
        r := Err(ProductNotFound);
      }
    }

    /**
     * A conditional update: only when `productId` is stored, its five
     * descriptive attributes are replaced and the new record is returned.
     */
    method UpdateProduct(productId: string, product: Product) returns (r: Result<Product>)
      requires Valid()
      modifies this
      ensures Valid()
      ensures productId !in old(table) ==> r == Err(ConditionalCheckFailed) && table == old(table)
      ensures productId in old(table) ==>
        && r == Ok(product.(id := productId))
        && table == old(table)[productId := r.value]
    {
      if productId !in table {
        r := Err(ConditionalCheckFailed);
        return;
      }
      var stored := table[productId];
      var updated := stored.(productName := product.productName, code := product.code,
                             price := product.price, model := product.model,
                             productUrl := product.productUrl);
      table := table[productId := updated];
      r := Ok(updated);
    }
  }

  /**
   * A product created and then fetched by its new id comes back unchanged;
   * deleting it returns the same record, and a second delete finds nothing.
   */
  method CreateGetDelete(repo: ProductRepository, product: Product, freshId: string)
    returns (created: Product, fetched: Result<Product>, deleted: Result<Product>, again: Result<Product>)
    requires repo.Valid() && freshId !in repo.table
    modifies repo
    ensures repo.Valid() && repo.table == old(repo.table)
    ensures created.id == freshId
    ensures fetched == Ok(created) && deleted == Ok(created)
    ensures again == Err(ProductNotFound)
  {
    created := repo.CreateProduct(product, freshId);
    fetched := repo.GetProductById(created.id);
    deleted := repo.DeleteProduct(created.id);
    again := repo.DeleteProduct(created.id);
  }

  /** An update is visible to the next get; on an unknown id nothing is created. */
  method UpdateThenGet(repo: ProductRepository, productId: string, product: Product)
    returns (updated: Result<Product>, fetched: Result<Product>)
    requires repo.Valid()
    modifies repo
    ensures repo.Valid()
    ensures updated.Ok? <==> productId in old(repo.table)
    ensures updated.Ok? ==> fetched == updated
    ensures updated.Err? ==> fetched == Err(ProductNotFound) && repo.table == old(repo.table)
  {
    updated := repo.UpdateProduct(productId, product);
    fetched := repo.GetProductById(productId);
  }
}
