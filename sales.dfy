/**
 * The single forward pass over the sales records
 * (calculate_total_sales in compute_sales.py).
 */
module Sales {
  import opened Text
  import opened Catalog

  /** One sales record: { "Product": ..., "Quantity": ... }. */
  datatype Sale = Sale(product: string, quantity: Value)

  /** A line the pass prints, naming the lower-cased product. */
  datatype Diagnostic = NotFound(name: string) | InvalidQuantity(name: string)

  /** What happens to one record. */
  datatype LineOutcome = Unknown | Invalid | Priced(amount: real)

  /**
   * The record's product is looked up by its lower-cased name; a miss is
   * Unknown. Otherwise `price * quantity` is attempted, and it (or adding
   * it to the running total) raises TypeError unless both are numbers.
   */
  function Resolve(prices: PriceIndex, sale: Sale): (r: LineOutcome)
    ensures r.Unknown? <==> Lower(sale.product) !in prices
    ensures r.Priced? <==>
      Lower(sale.product) in prices && prices[Lower(sale.product)].Num? && sale.quantity.Num?
    ensures r.Priced? ==> r.amount == prices[Lower(sale.product)].amount * sale.quantity.amount
  {
    var name := Lower(sale.product);
    if name !in prices then Unknown
    else match (prices[name], sale.quantity)
      case (Num(p), Num(q)) => Priced(p * q)
      case _ => Invalid
  }

  /** What one record adds to the total: nothing unless it is priced. */
  function Contribution(prices: PriceIndex, sale: Sale): real {
    match Resolve(prices, sale)
    case Priced(a) => a
    case _ => 0.0
  }

  /** The running total after the given records. */
  function Total(prices: PriceIndex, sales: seq<Sale>): real {
    if sales == [] then 0.0
    else Total(prices, sales[..|sales| - 1]) + Contribution(prices, sales[|sales| - 1])
  }

  /** The error flag after the given records. */
  function HasErrors(prices: PriceIndex, sales: seq<Sale>): bool {
    if sales == [] then false
    else HasErrors(prices, sales[..|sales| - 1]) || !Resolve(prices, sales[|sales| - 1]).Priced?
  }

  /** What one record prints, if anything. */
  function DiagnosticOf(prices: PriceIndex, sale: Sale): seq<Diagnostic> {
    match Resolve(prices, sale)
    case Unknown => [NotFound(Lower(sale.product))]
    case Invalid => [InvalidQuantity(Lower(sale.product))]
    case Priced(_) => []
  }

  /** The lines printed after the given records, in record order. */
  function Diagnostics(prices: PriceIndex, sales: seq<Sale>): seq<Diagnostic> {
    if sales == [] then []
    else Diagnostics(prices, sales[..|sales| - 1]) + DiagnosticOf(prices, sales[|sales| - 1])
  }

  /**
   * One pass over the records. Returns the total and the error flag, and
   * the diagnostics it prints along the way. The index is a value and is
   * never changed.
   */
  method CalculateTotalSales(prices: PriceIndex, sales: seq<Sale>)
    returns (total: real, errors: bool, printed: seq<Diagnostic>)
    ensures total == Total(prices, sales)
    ensures errors == HasErrors(prices, sales)
    ensures printed == Diagnostics(prices, sales)
  {
    total, errors, printed := 0.0, false, [];
    for i := 0 to |sales|
      invariant total == Total(prices, sales[..i])
      invariant errors == HasErrors(prices, sales[..i])
      invariant printed == Diagnostics(prices, sales[..i])
    {
      assert sales[..i + 1][..i] == sales[..i];
      var sale := sales[i];
      var name := Lower(sale.product);
      if name !in prices {
        printed := printed + [NotFound(name)];
        errors := true;
        continue;
      }
      match (prices[name], sale.quantity)
      case (Num(p), Num(q)) =>
        total := total + p * q;
      case _ =>
        printed := printed + [InvalidQuantity(name)];
        errors := true;
    }
    assert sales[..|sales|] == sales;
  }

  /** The sum of a sequence of amounts, left to right. */
  function Sum(xs: seq<real>): real {
    if xs == [] then 0.0 else xs[0] + Sum(xs[1..])
  }

  /** The amounts of exactly the priced records, in order. */
  function PricedAmounts(prices: PriceIndex, sales: seq<Sale>): seq<real> {
    if sales == [] then []
    else
      var rest := PricedAmounts(prices, sales[1..]);
      match Resolve(prices, sales[0])
      case Priced(a) => [a] + rest
      case _ => rest
  }

  lemma {:induction false} SumAppend(xs: seq<real>, ys: seq<real>)
    ensures Sum(xs + ys) == Sum(xs) + Sum(ys)
  {
    if xs == [] {
      assert xs + ys == ys;
    } else {
      assert (xs + ys)[1..] == xs[1..] + ys;
      SumAppend(xs[1..], ys);
    }
  }

  lemma {:induction false} PricedAmountsAppend(prices: PriceIndex, sales: seq<Sale>, sale: Sale)
    ensures PricedAmounts(prices, sales + [sale])
         == PricedAmounts(prices, sales) + PricedAmounts(prices, [sale])
  {
    if sales != [] {
      assert (sales + [sale])[1..] == sales[1..] + [sale];
      PricedAmountsAppend(prices, sales[1..], sale);
    }
  }

  /**
   * The total is the sum of price times quantity over exactly those records
   * that resolve in the index and have numeric values.
   */
  lemma {:induction false} TotalIsSumOfPriced(prices: PriceIndex, sales: seq<Sale>)
    ensures Total(prices, sales) == Sum(PricedAmounts(prices, sales))
  {
    if sales != [] {
      var n := |sales| - 1;
      TotalIsSumOfPriced(prices, sales[..n]);
      assert sales[..n] + [sales[n]] == sales;
      PricedAmountsAppend(prices, sales[..n], sales[n]);
      SumAppend(PricedAmounts(prices, sales[..n]), PricedAmounts(prices, [sales[n]]));
      assert [sales[n]][1..] == [];
    }
  }

  /** The flag is clear exactly when every record resolves and is numeric. */
  lemma {:induction false} NoErrorsIffAllPriced(prices: PriceIndex, sales: seq<Sale>)
    ensures !HasErrors(prices, sales) <==>
      forall i :: 0 <= i < |sales| ==> Resolve(prices, sales[i]).Priced?
  {
    if sales != [] {
      var n := |sales| - 1;
      NoErrorsIffAllPriced(prices, sales[..n]);
      assert forall i :: 0 <= i < n ==> sales[..n][i] == sales[i];
    }
  }

  /** The flag is set exactly when something was printed. */
  lemma {:induction false} ErrorsIffDiagnostics(prices: PriceIndex, sales: seq<Sale>)
    ensures HasErrors(prices, sales) <==> Diagnostics(prices, sales) != []
  {
    if sales != [] {
      ErrorsIffDiagnostics(prices, sales[..|sales| - 1]);
    }
  }

  /**
   * A record that fails adds nothing, keeps the total of the records before
   * it, sets the flag and prints one line; the pass goes on.
   */
  lemma FailedRecordAddsNothing(prices: PriceIndex, sales: seq<Sale>, sale: Sale)
    requires !Resolve(prices, sale).Priced?
    ensures Total(prices, sales + [sale]) == Total(prices, sales)
    ensures HasErrors(prices, sales + [sale])
    ensures Resolve(prices, sale).Unknown? ==>
      Diagnostics(prices, sales + [sale]) == Diagnostics(prices, sales) + [NotFound(Lower(sale.product))]
    ensures Resolve(prices, sale).Invalid? ==>
      Diagnostics(prices, sales + [sale]) == Diagnostics(prices, sales) + [InvalidQuantity(Lower(sale.product))]
  {
    assert (sales + [sale])[..|sales|] == sales;
  }

  /**
   * Only the record's lower-cased name matters: "Widget", "widget" and
   * "WIDGET" are priced alike.
   */
  lemma ResolveIgnoresCase(prices: PriceIndex, a: Sale, b: Sale)
    requires EqualIgnoringCase(a.product, b.product) && a.quantity == b.quantity
    ensures Resolve(prices, a) == Resolve(prices, b)
  {
    SameKeyIffEqualIgnoringCase(a.product, b.product);
  }

  /**
   * A record is unknown exactly when no catalogue title lowers to its
   * lower-cased name.
   */
  lemma UnknownIffNoTitle(products: seq<Product>, sale: Sale)
    ensures Resolve(IndexOf(products), sale).Unknown? <==>
      forall j :: 0 <= j < |products| ==> Lower(products[j].title) != Lower(sale.product)
  {
    var key := Lower(sale.product);
    IndexKeys(products);
    if key !in IndexOf(products) {
      forall j | 0 <= j < |products|
        ensures Lower(products[j].title) != key
      {
        assert Lower(products[j].title) in Titles(products);
      }
    }
  }

  /**
   * Otherwise the last product carrying that name supplies the price: the
   * record is priced at price times quantity when both are numbers and
   * invalid when either is not.
   */
  lemma ResolvedByLastTitle(products: seq<Product>, sale: Sale, i: int)
    requires LastWith(products, i, Lower(sale.product))
    ensures Resolve(IndexOf(products), sale) ==
      if products[i].price.Num? && sale.quantity.Num?
      then Priced(products[i].price.amount * sale.quantity.amount)
      else Invalid
  {
    LastWriteWins(products, i, Lower(sale.product));
  }
}
