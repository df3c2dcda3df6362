/**
 * The price catalogue and the price index built from it
 * (map_prices_to_titles in compute_sales.py).
 */
module Catalog {
  import opened Text

  /**
   * A JSON value in a price or quantity position. Python's multiplication and
   * addition accept ints, floats and booleans alike, so all of these are Num
   * (with their exact value); strings, lists, objects and null are
   * NonNumeric, and so is a sale without a "Quantity" key, which is read
   * with `get`. A product without a "price" key is not representable: the
   * script reads it by subscript and stops with KeyError.
   */
  datatype Value = Num(amount: real) | NonNumeric

  /** One entry of the price catalogue: { "title": ..., "price": ... }. */
  datatype Product = Product(title: string, price: Value)

  /** Lower-cased title to price. */
  type PriceIndex = map<string, Value>

  /**
   * The index after inserting the products one by one, in list order:
   * each insertion overwrites whatever an earlier product with the same
   * lower-cased title stored.
   */
  function IndexOf(products: seq<Product>): PriceIndex
  {
    if products == [] then map[]
    else
      var last := products[|products| - 1];
      IndexOf(products[..|products| - 1])[Lower(last.title) := last.price]
  }

  /** The lower-cased titles occurring in the catalogue. */
  ghost function Titles(products: seq<Product>): set<string> {
    set i | 0 <= i < |products| :: Lower(products[i].title)
  }

  /** Product i is the last one in the list whose title lowers to key. */
  ghost predicate LastWith(products: seq<Product>, i: int, key: string) {
    0 <= i < |products| && Lower(products[i].title) == key &&
    forall j :: i < j < |products| ==> Lower(products[j].title) != key
  }

  /** Builds the index with a loop that fills the dictionary in place. */
  method MapPricesToTitles(products: seq<Product>) returns (prices: PriceIndex)
    ensures prices == IndexOf(products)
    ensures prices.Keys == Titles(products)
  {
    prices := map[];
    for i := 0 to |products|
      invariant prices == IndexOf(products[..i])
    {
      assert products[..i + 1][..i] == products[..i];
      prices := prices[Lower(products[i].title) := products[i].price];
    }
    assert products[..|products|] == products;
    IndexKeys(products);
  }

  /** The keys are exactly the lower-cased titles; no catalogue, no keys. */
  lemma {:induction false} IndexKeys(products: seq<Product>)
    ensures IndexOf(products).Keys == Titles(products)
    ensures products == [] ==> IndexOf(products) == map[]
  {
    if products != [] {
      var n := |products| - 1;
      IndexKeys(products[..n]);
      assert Titles(products) == Titles(products[..n]) + {Lower(products[n].title)} by {
        forall k | k in Titles(products)
          ensures k in Titles(products[..n]) + {Lower(products[n].title)}
        {
          var i :| 0 <= i < |products| && Lower(products[i].title) == k;
          if i < n {
            assert products[..n][i] == products[i];
          }
        }
        forall k | k in Titles(products[..n])
          ensures k in Titles(products)
        {
          var i :| 0 <= i < n && Lower(products[..n][i].title) == k;
          assert products[i] == products[..n][i];
        }
      }
    }
  }

  /** Last write wins: a key maps to the price of the last product carrying it. */
  lemma {:induction false} LastWriteWins(products: seq<Product>, i: int, key: string)
    requires LastWith(products, i, key)
    ensures key in IndexOf(products) && IndexOf(products)[key] == products[i].price
  {
    var n := |products| - 1;
    if i < n {
      assert LastWith(products[..n], i, key) by {
        forall j | i < j < n
          ensures Lower(products[..n][j].title) != key
        {
          assert products[..n][j] == products[j];
        }
      }
      LastWriteWins(products[..n], i, key);
    }
  }

  /** Every key of the index lowers to itself: keys are already normalised. */
  lemma IndexKeysAreLower(products: seq<Product>, key: string)
    requires key in IndexOf(products)
    ensures Lower(key) == key
  {
    IndexKeys(products);
    var i :| 0 <= i < |products| && Lower(products[i].title) == key;
    LowerIdempotent(products[i].title);
  }

  /**
   * Every key present in the index has a last product carrying it, and
   * the index stores that product's price.
   */
  lemma IndexValueIsLastPrice(products: seq<Product>, key: string)
    requires key in IndexOf(products)
    ensures exists i :: LastWith(products, i, key) && IndexOf(products)[key] == products[i].price
  {
    IndexKeys(products);
    var i :| 0 <= i < |products| && Lower(products[i].title) == key;
    while exists j :: i < j < |products| && Lower(products[j].title) == key
      invariant 0 <= i < |products| && Lower(products[i].title) == key
      decreases |products| - i
    {
      var j :| i < j < |products| && Lower(products[j].title) == key;
      i := j;
    }
    LastWriteWins(products, i, key);
  }
}
