# compute_sales in Dafny

A model of `compute_sales.py`, a script that totals a set of sales records
against a product price catalogue. The model covers three parts:

- **The price index** (`map_prices_to_titles`, module `Catalog`). A loop fills a
  dictionary from each product's lower-cased title to its price, in list order.
  A later product with the same lower-cased title overwrites an earlier one.
- **The sales pass** (`calculate_total_sales`, module `Sales`). One forward
  loop over the records. A record whose lower-cased product is not in the
  index prints a "not found" line, sets the error flag and adds nothing. If
  `price * quantity` (or adding it to the total) raises `TypeError`, the record
  prints an "invalid quantity" line, sets the flag and adds nothing. Any other
  record adds `price * quantity` to the total.
- **The run** (`main`, module `ComputeSales`). The run stops if either document
  is missing. Otherwise it builds the index, totals the sales and prints the
  report. It appends the report to `SalesResults.txt` only when the flag is
  clear.

Case normalisation (`.lower()`) is in module `Text`. Module `Wrappers` holds
`Option`, which stands for the loader's "data or None" result.

Modelling choices:

- Prices and quantities are JSON values of type `Value`. A number is
  `Num(amount)` with an exact `real` amount. Python booleans are integers, so
  `true` and `false` are numbers too. Strings, lists, objects and `null` are
  `NonNumeric`, and so is a missing `Quantity` key (`sale.get` gives `None`).
  A missing `price` key has no `Value`: the script reads it by subscript and
  stops (see "Left out").
- For the values the model admits, `total += price * quantity` raises
  `TypeError` when the price or the quantity is not a number. A string times
  an integer does succeed (it repeats the string), but adding the result to a
  number then raises. So the "invalid quantity" branch (`Sales.Invalid`) is
  also taken when the catalogue price is not a number, and the printed line
  still blames the quantity. The price is not checked when the index is built.
- Diagnostics print the lower-cased name, because the code prints the
  normalised `product_name`. `CalculateTotalSales` returns the printed lines,
  in record order, as a third result.
- The loader's result is an `Option`. `json.load` returns `None` for a
  document holding just `null`, so such a file also aborts the run. An empty
  list does not abort it.
- The price index is a Dafny `map`, which is a value, so the sales pass cannot
  change it.
- The code starts the clock before loading the documents (line 51). The
  elapsed time is a parameter of `Run`, so where the clock starts does not
  matter to the model.

## Model

| member | source | states |
|---|---|---|
| `Text.Lower` | compute_sales.py:21 | lower-casing keeps the length and leaves no upper-case letter |
| `Text.LowerIdempotent` | compute_sales.py:21 | lower-casing a lower-cased name changes nothing, so stored keys are already normal |
| `Text.SameKeyIffEqualIgnoringCase` | compute_sales.py:30-33 | two names give the same lookup key if and only if, at every position, they hold the same character or the upper- and lower-case forms of one ASCII letter |
| `Catalog.MapPricesToTitles` | compute_sales.py:17-22 | the loop builds the last-write-wins index, whose keys are exactly the lower-cased titles |
| `Catalog.IndexKeys` | compute_sales.py:19-22 | the index keys are exactly the lower-cased titles; an empty catalogue gives an empty index |
| `Catalog.LastWriteWins` | compute_sales.py:20-21 | a key maps to the price of the last product whose lower-cased title is that key |
| `Catalog.IndexValueIsLastPrice` | compute_sales.py:20-21 | every stored price is the price of the last product carrying that key |
| `Catalog.IndexKeysAreLower` | compute_sales.py:21 | every key of the index is already lower-case |
| `Sales.UnknownIffNoTitle` | compute_sales.py:19-37 | a sale is unknown (prints "not found", adds nothing) if and only if no catalogue title lowers to its lower-cased name |
| `Sales.ResolvedByLastTitle` | compute_sales.py:20-44 | a known sale is priced with the price of the last catalogue product carrying its name, at price times quantity when both are numbers, and is invalid otherwise |
| `Sales.CalculateTotalSales` | compute_sales.py:25-46 | the loop returns the running total, the error flag and the printed lines of the whole pass |
| `Sales.TotalIsSumOfPriced` | compute_sales.py:27-46 | the total is the sum of price times quantity over exactly the priced records, in order |
| `Sales.NoErrorsIffAllPriced` | compute_sales.py:28-44 | the flag is clear if and only if every record resolves and has numeric values; no records give no error |
| `Sales.ErrorsIffDiagnostics` | compute_sales.py:33-44 | the flag is set if and only if the pass printed at least one line |
| `Sales.FailedRecordAddsNothing` | compute_sales.py:33-44 | a failing record keeps the total so far, sets the flag and prints one line naming the lower-cased product: "not found" for an unknown product, "invalid quantity" for a non-numeric value |
| `Sales.ResolveIgnoresCase` | compute_sales.py:30-33 | records whose names differ only in case resolve alike |
| `ComputeSales.SaleMatchesTitleIgnoringCase` | compute_sales.py:20-33 | a sale named like a catalogue title up to case gets the price of the last entry with that title |
| `ComputeSales.WidgetAnyCase` | compute_sales.py:17-40 | "widget", "Widget" and "WIDGET" all get the price of the catalogue's "Widget" |
| `ComputeSales.CleanScenario` | compute_sales.py:17-46 | apple 0.50 x 4 plus bread 2.00 x 1 totals 4.00 with no error |
| `ComputeSales.UnknownProductScenario` | compute_sales.py:25-46 | an unknown "milk" record adds nothing, sets the flag and prints one "not found" line |
| `ComputeSales.ResultsFile.Append` | compute_sales.py:69-70 | appending adds the report at the end of the results file and keeps what was there |
| `ComputeSales.Run` | compute_sales.py:49-70 | a missing document aborts with the file untouched; otherwise the report holds the total and the flag, and the file grows by one entry exactly when every record is priced |

## Left out

- Loading (`load_json_data`, lines 7-14): file access and JSON parsing. Its result is the `Option` given to `Run`. Errors it does not catch (such as a permission error) would end the program and are not modelled.
- The clock (`time.time()`, lines 51 and 62): the elapsed time is a parameter of `Run`.
- Text formatting of the report (`:.2f`, lines 64-65) and the wording of the printed lines: a report is the pair of total and elapsed time, and a diagnostic is its kind and the product name.
- Floating-point arithmetic: amounts are exact reals, so float rounding, infinities and an int too large to convert to float are not modelled.
- Other exceptions from `price * quantity` (lines 39-44): a string or list price times a huge integer quantity raises `OverflowError` or `MemoryError`, which the script does not catch. The model treats every non-numeric price or quantity as the caught `TypeError` branch.
- Text.Lower: lowers ASCII letters only; Python's `str.lower` also lowers other Unicode letters, some into several characters.
- The argument-count check and usage text (lines 73-80): command-line handling.
- Malformed record shapes that crash the script: a product without a string `title` (`KeyError`, or no `.lower()`), a product without a `price` key (`KeyError` at line 21), and a sale without a string `Product` (`None.lower()` at line 30). Records are typed, so these inputs cannot be written. A document that is not a list of objects is excluded the same way.
