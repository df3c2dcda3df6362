/**
 * The run of compute_sales.py after its arguments are read: both documents
 * are loaded, the index is built, the sales are totalled, the report is
 * printed, and it is appended to the results file only on a clean run.
 */
module ComputeSales {
  import opened Wrappers
  import opened Text
  import opened Catalog
  import opened Sales

  /** The two-line report: total sales cost and execution time. */
  datatype Report = Report(total: real, elapsed: real)

  /** How a run ends: aborted on a missing document, or reported. */
  datatype RunOutcome =
    | Aborted
    | Reported(report: Report, errors: bool, printed: seq<Diagnostic>)

  /** SalesResults.txt, opened for appending. */
  class ResultsFile {
    var entries: seq<Report>

    constructor (existing: seq<Report>)
      ensures entries == existing
    {
      entries := existing;
    }

    method Append(r: Report)
      modifies this
      ensures entries == old(entries) + [r]
    {
      entries := entries + [r];
    }
  }

  /**
   * main, from the loaded documents on. A document that failed to load (or
   * that held JSON null) is None. The clock reading is the parameter elapsed.
   */
  method Run(catalogue: Option<seq<Product>>, records: Option<seq<Sale>>,
             elapsed: real, results: ResultsFile)
    returns (outcome: RunOutcome)
    modifies results
    ensures catalogue.None? || records.None? ==>
      outcome == Aborted && results.entries == old(results.entries)
    ensures catalogue.Some? && records.Some? ==>
      var prices := IndexOf(catalogue.value);
      outcome == Reported(Report(Total(prices, records.value), elapsed),
                          HasErrors(prices, records.value),
                          Diagnostics(prices, records.value))
    ensures results.entries ==
      if outcome.Reported? && !outcome.errors then old(results.entries) + [outcome.report]
      else old(results.entries)
    ensures |results.entries| == |old(results.entries)| + 1 <==>
      catalogue.Some? && records.Some? &&
      forall i :: 0 <= i < |records.value| ==>
        Resolve(IndexOf(catalogue.value), records.value[i]).Priced?
  {
    if catalogue.None? || records.None? {
      return Aborted;
    }
    var prices := MapPricesToTitles(catalogue.value);
    var total, errors, printed := CalculateTotalSales(prices, records.value);
    var report := Report(total, elapsed);
    outcome := Reported(report, errors, printed);
    NoErrorsIffAllPriced(prices, records.value);
    if !errors {
      results.Append(report);
    }
  }

  /**
   * A sale whose name equals a catalogue title up to case is priced with
   * the last catalogue entry carrying that title.
   */
  lemma SaleMatchesTitleIgnoringCase(products: seq<Product>, i: int, sale: Sale)
    requires 0 <= i < |products|
    requires LastWith(products, i, Lower(products[i].title))
    requires EqualIgnoringCase(sale.product, products[i].title)
    ensures Lower(sale.product) in IndexOf(products)
    ensures IndexOf(products)[Lower(sale.product)] == products[i].price
  {
    SameKeyIffEqualIgnoringCase(sale.product, products[i].title);
    LastWriteWins(products, i, Lower(products[i].title));
  }

  /** A catalogue with "Widget" prices "widget", "Widget" and "WIDGET" alike. */
  lemma WidgetAnyCase(q: real)
    ensures var prices := IndexOf([Product("Widget", Num(2.5))]);
      Resolve(prices, Sale("widget", Num(q))) == Priced(2.5 * q) &&
      Resolve(prices, Sale("Widget", Num(q))) == Priced(2.5 * q) &&
      Resolve(prices, Sale("WIDGET", Num(q))) == Priced(2.5 * q)
  {
    assert Lower("Widget") == "widget";
    assert Lower("widget") == "widget";
    assert Lower("WIDGET") == "widget";
  }

  /** Apple at 0.50 times 4 plus bread at 2.00 times 1: 4.00, clean. */
  lemma CleanScenario()
    ensures var prices := IndexOf([Product("Apple", Num(0.5)), Product("Bread", Num(2.0))]);
      var sales := [Sale("apple", Num(4.0)), Sale("bread", Num(1.0))];
      Total(prices, sales) == 4.0 && !HasErrors(prices, sales)
  {
    assert Lower("Apple") == "apple" && Lower("apple") == "apple";
    assert Lower("Bread") == "bread" && Lower("bread") == "bread";
    var sales := [Sale("apple", Num(4.0)), Sale("bread", Num(1.0))];
    assert sales[..1] == [Sale("apple", Num(4.0))];
  }

  /** Milk is not in the catalogue: reported, flagged, adds nothing. */
  lemma UnknownProductScenario()
    ensures var prices := IndexOf([Product("Apple", Num(0.5))]);
      var sales := [Sale("apple", Num(4.0)), Sale("milk", Num(2.0))];
      Total(prices, sales) == 2.0 && HasErrors(prices, sales) &&
      Diagnostics(prices, sales) == [NotFound("milk")]
  {
    assert Lower("Apple") == "apple" && Lower("apple") == "apple";
    assert Lower("milk") == "milk";
    var sales := [Sale("apple", Num(4.0)), Sale("milk", Num(2.0))];
    assert sales[..1] == [Sale("apple", Num(4.0))];
  }
}
