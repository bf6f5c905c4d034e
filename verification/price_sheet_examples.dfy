/** The price sheet of the parser's tests, taken apart: each cell of its five
    product records cleaned with a surcharge of 0.10, its two location forms,
    its two skipped records, and the cost, cheapest-product and filter
    queries over the five products those records give. */
module PriceSheetExamples {
  import opened Wrappers
  import opened Text
  import opened PriceSheet

  const Surcharge: Option<real> := Some(0.10)

  /** A price cell `$d.cc`. */
  function Dollars(cents: nat): string {
    "$" + FormatCents(cents)
  }

  /** A price cell `$d.cc per load`. */
  function LoadPrice(cents: nat): string {
    Dollars(cents) + " " + PerLoad
  }

  const Product1 := Product("Cherokee", Some("Rock Quarry"), Some("594"), "40 Sutton Hill Rd, Cherokee, AL 35616",
                            "#89 Stone", Some(20.10), Some(19.10), Some(2.50))
  const Product2 := Product("Lacey's Spring", Some("Rock Quarry"), Some("71501"), "105 Vaughn Rd, Laceys Spring, AL 35754",
                            "Fill Dirt", Some(50.10), Some(50.10), None)
  const Product3 := Product("Cherokee", Some("Rock Quarry"), Some("594"), "40 Sutton Hill Rd, Cherokee, AL 35616",
                            "8910s", None, None, Some(3.00))
  const Product4 := Product("Monteagle", Some("Sand Quarry"), Some("71087"), "15878 Sewanee Hwy, TN 37375",
                            "1 1/2\"", Some(24.10), Some(23.10), None)
  const Product5 := Product("Incomplete", Some("Location"), None, "Some Address",
                            "Cheap Stone", Some(10.10), Some(9.10), Some(15.00))

  const Products: seq<Product> := [Product1, Product2, Product3, Product4, Product5]

  /** The two-decimal amount `text` reads as `cents` hundredths. */
  lemma Amount(text: string, cents: nat)
    requires FormatCents(cents) == text
    ensures IsAmountText(text) && ParseDecimal(text) == Some(Scaled(cents, 2))
  {
    FormatCentsShape(cents);
    ParseFormatCents(cents);
  }

  // The price cells of the five product records, cleaned with the surcharge on
  // the two per-ton prices and none on the delivery cost.

  /** `#89 Stone`: `$20.00` and `$19.00` per ton, `$2.50` delivery. */
  lemma Record1Texts()
    ensures Dollars(2000) == "$20.00"
    ensures Dollars(1900) == "$19.00"
    ensures Dollars(250) == "$2.50"
  {
  }

  lemma Record1Prices()
    ensures CleanPrice(Dollars(2000), Surcharge) == Some(20.10)
    ensures CleanPrice(Dollars(1900), Surcharge) == Some(19.10)
    ensures CleanPrice(Dollars(250), None) == Some(2.50)
  {
    Amount(FormatCents(2000), 2000);
    ScaledCents(2000);
    DollarAmountsClean(FormatCents(2000), 20.0, Surcharge);
    Amount(FormatCents(1900), 1900);
    ScaledCents(1900);
    DollarAmountsClean(FormatCents(1900), 19.0, Surcharge);
    Amount(FormatCents(250), 250);
    ScaledCents(250);
    DollarAmountsClean(FormatCents(250), 2.50, None);
  }

  /** `Fill Dirt`: `$50.00 per load` for both prices, delivery `CALL`. */
  lemma Record2Texts()
    ensures LoadPrice(5000) == "$50.00 per load"
  {
  }

  lemma Record2Prices()
    ensures CleanPrice(LoadPrice(5000), Surcharge) == Some(50.10)
    ensures CleanPrice("CALL", None) == None
  {
    Amount(FormatCents(5000), 5000);
    ScaledCents(5000);
    DollarAmountsClean(FormatCents(5000), 50.0, Surcharge);
    NoPriceMarkers(None);
  }

  /** `8910s`: `CALL` for both prices, delivery `3.00`. */
  lemma Record3Texts()
    ensures FormatCents(300) == "3.00"
  {
  }

  lemma Record3Prices()
    ensures CleanPrice("CALL", Surcharge) == None
    ensures CleanPrice(FormatCents(300), None) == Some(3.00)
  {
    Amount(FormatCents(300), 300);
    ScaledCents(300);
    DollarAmountsClean(FormatCents(300), 3.0, None);
    NoPriceMarkers(Surcharge);
  }

  /** `1 1/2"`: a bare `24.00`, `$23.00`, delivery `N/A`. */
  lemma Record4Texts()
    ensures FormatCents(2400) == "24.00"
    ensures Dollars(2300) == "$23.00"
  {
  }

  lemma Record4Prices()
    ensures CleanPrice(FormatCents(2400), Surcharge) == Some(24.10)
    ensures CleanPrice(Dollars(2300), Surcharge) == Some(23.10)
    ensures CleanPrice("N/A", None) == None
  {
    Amount(FormatCents(2400), 2400);
    ScaledCents(2400);
    DollarAmountsClean(FormatCents(2400), 24.0, Surcharge);
    Amount(FormatCents(2300), 2300);
    ScaledCents(2300);
    DollarAmountsClean(FormatCents(2300), 23.0, Surcharge);
    NoPriceMarkers(None);
  }

  /** `Cheap Stone`: `$10.00`, `$9.00`, delivery `$15.00`. */
  lemma Record5Texts()
    ensures Dollars(1000) == "$10.00"
    ensures Dollars(900) == "$9.00"
    ensures Dollars(1500) == "$15.00"
  {
  }

  lemma Record5Prices()
    ensures CleanPrice(Dollars(1000), Surcharge) == Some(10.10)
    ensures CleanPrice(Dollars(900), Surcharge) == Some(9.10)
    ensures CleanPrice(Dollars(1500), None) == Some(15.00)
  {
    Amount(FormatCents(1000), 1000);
    ScaledCents(1000);
    DollarAmountsClean(FormatCents(1000), 10.0, Surcharge);
    Amount(FormatCents(900), 900);
    ScaledCents(900);
    DollarAmountsClean(FormatCents(900), 9.0, Surcharge);
    Amount(FormatCents(1500), 1500);
    ScaledCents(1500);
    DollarAmountsClean(FormatCents(1500), 15.0, None);
  }

  /** Without a surcharge the sheet's amount is kept as it is. */
  lemma CleanWithoutSurcharge()
    ensures CleanPrice(Dollars(2000), None) == Some(20.00)
    ensures CleanPrice(Dollars(1900), None) == Some(19.00)
  {
    Record1Prices();
    SurchargeAddsExactly(Dollars(2000), 0.10);
    SurchargeAddsExactly(Dollars(1900), 0.10);
  }

  /** Text that is not a numeral has no price. */
  lemma InvalidPrice(surcharge: Option<real>)
    ensures CleanPrice("Invalid Price", surcharge) == None
  {
    NonNumeralHasNoPrice("Invalid Price", surcharge);
  }

  /** The full location column of the sheet. */
  lemma FullLocation()
    ensures ParseLocation("Cherokee/Rock Quarry/594") == Location("Cherokee", Some("Rock Quarry"), Some("594"))
  {
    assert "Cherokee/Rock Quarry/594" == "Cherokee" + "/" + "Rock Quarry" + "/" + "594";
    ParseLocationThreeParts("Cherokee", "Rock Quarry", "594");
  }

  /** A location column without a number. */
  lemma IncompleteLocation()
    ensures ParseLocation("Incomplete/Location") == Location("Incomplete", Some("Location"), None)
  {
    assert "Incomplete/Location" == "Incomplete" + "/" + "Location";
    ParseLocationTwoParts("Incomplete", "Location");
  }

  /** The location column of the Lacey's Spring records. */
  lemma LaceysSpringLocation()
    ensures ParseLocation("Lacey's Spring/Rock Quarry/71501") == Location("Lacey's Spring", Some("Rock Quarry"), Some("71501"))
  {
    assert "Lacey's Spring/Rock Quarry/71501" == "Lacey's Spring" + "/" + "Rock Quarry" + "/" + "71501";
    ParseLocationThreeParts("Lacey's Spring", "Rock Quarry", "71501");
  }

  /** The location column of the Monteagle record. */
  lemma MonteagleLocation()
    ensures ParseLocation("Monteagle/Sand Quarry/71087") == Location("Monteagle", Some("Sand Quarry"), Some("71087"))
  {
    assert "Monteagle/Sand Quarry/71087" == "Monteagle" + "/" + "Sand Quarry" + "/" + "71087";
    ParseLocationThreeParts("Monteagle", "Sand Quarry", "71087");
  }

  // The sheet's records as the CSV reader returns them, price cells written
  // through `Dollars`, `LoadPrice` and `FormatCents` (the `RecordNTexts`
  // lemmas spell them out).

  const Header: Row := ["Plant,or,Quarry Name/Type/Location Number", "Address", "Product",
                        "Non-Account Holder Price Per Ton", "Account Holder Price Per Ton",
                        "Delivery Cost Per Ton Added in If We Are Hauling"]
  const Record1: Row := ["Cherokee/Rock Quarry/594", "40 Sutton Hill Rd, Cherokee, AL 35616", "#89 Stone",
                         Dollars(2000), Dollars(1900), Dollars(250)]
  const Record2: Row := ["Lacey's Spring/Rock Quarry/71501", "105 Vaughn Rd, Laceys Spring, AL 35754", "Fill Dirt",
                         LoadPrice(5000), LoadPrice(5000), "CALL"]
  const Record3: Row := ["Cherokee/Rock Quarry/594", "40 Sutton Hill Rd, Cherokee, AL 35616", "8910s",
                         "CALL", "CALL", FormatCents(300)]
  const Record4: Row := ["Monteagle/Sand Quarry/71087", "15878 Sewanee Hwy, TN 37375", "1 1/2\"",
                         FormatCents(2400), Dollars(2300), "N/A"]
  const Record5: Row := ["Incomplete/Location", "Some Address", "Cheap Stone",
                         Dollars(1000), Dollars(900), Dollars(1500)]
  const Record7: Row := ["Lacey's Spring/Rock Quarry/71501", "105 Vaughn Rd, Laceys Spring, AL 35754", "", "", "", ""]

  /** The whole sheet: the header, five product records, an empty record and
      a record with a location but no product or prices. */
  const Sheet: seq<Row> := [Header, Record1, Record2, Record3, Record4, Record5, [], Record7]

  /** `d.cc` is not blank. */
  lemma NumeralNotBlank(cents: nat)
    ensures Trim(FormatCents(cents)) == FormatCents(cents) != ""
  {
    Amount(FormatCents(cents), cents);
    PriceTextOfNumeral(FormatCents(cents));
  }

  /** `$d.cc per load` is not blank. */
  lemma LoadPriceNotBlank(cents: nat)
    ensures Trim(LoadPrice(cents)) == LoadPrice(cents) != ""
  {
    Amount(FormatCents(cents), cents);
    PriceTextOfLoadPrice(FormatCents(cents));
  }

  /** `$d.cc` is not blank. */
  lemma DollarsNotBlank(cents: nat)
    ensures Trim(Dollars(cents)) == Dollars(cents) != ""
  {
    Amount(FormatCents(cents), cents);
    PriceTextOfDollars(FormatCents(cents));
  }

  /** The address and product cells of the `#89 Stone` record need no trimming. */
  lemma Record1Unpadded()
    ensures Trim("40 Sutton Hill Rd, Cherokee, AL 35616") == "40 Sutton Hill Rd, Cherokee, AL 35616"
    ensures Trim("#89 Stone") == "#89 Stone"
  {
    TrimUnpadded("40 Sutton Hill Rd, Cherokee, AL 35616");
    TrimUnpadded("#89 Stone");
  }

  /** The product and the two per-ton price cells of the `#89 Stone` record are not blank. */
  lemma Record1Filled()
    ensures Trim("#89 Stone") != "" && Trim(Dollars(2000)) != "" && Trim(Dollars(1900)) != ""
  {
    Record1Unpadded();
    DollarsNotBlank(2000);
    DollarsNotBlank(1900);
  }

  /** The `#89 Stone` record names a product and fills both price cells, so it is kept. */
  lemma Record1Kept()
    ensures IsDataRow(Record1)
  {
    Record1Filled();
    KeepRecord(
      "Cherokee/Rock Quarry/594", "40 Sutton Hill Rd, Cherokee, AL 35616", "#89 Stone",
      Dollars(2000), Dollars(1900), Dollars(250));
  }

  /** What each cell of the `#89 Stone` record parses to. */
  lemma Record1Cells()
    ensures ParseLocation("Cherokee/Rock Quarry/594") == Location("Cherokee", Some("Rock Quarry"), Some("594"))
    ensures Trim("40 Sutton Hill Rd, Cherokee, AL 35616") == "40 Sutton Hill Rd, Cherokee, AL 35616" && Trim("#89 Stone") == "#89 Stone"
    ensures CleanPrice(Dollars(2000), Surcharge) == Some(20.10)
    ensures CleanPrice(Dollars(1900), Surcharge) == Some(19.10)
    ensures CleanPrice(Dollars(250), None) == Some(2.50)
  {
    FullLocation();
    Record1Unpadded();
    Record1Prices();
  }

  /** The `#89 Stone` record parses to its product. */
  lemma Record1Product()
    ensures ParseRow(Record1, Surcharge) == Product1
  {
    Record1Cells();
    ParseRecord(
      "Cherokee/Rock Quarry/594", "40 Sutton Hill Rd, Cherokee, AL 35616", "#89 Stone",
      Dollars(2000), Dollars(1900), Dollars(250),
      Surcharge, Location("Cherokee", Some("Rock Quarry"), Some("594")),
      "40 Sutton Hill Rd, Cherokee, AL 35616", "#89 Stone", Some(20.10), Some(19.10), Some(2.50));
  }

  /** The address and product cells of the `Fill Dirt` record need no trimming. */
  lemma Record2Unpadded()
    ensures Trim("105 Vaughn Rd, Laceys Spring, AL 35754") == "105 Vaughn Rd, Laceys Spring, AL 35754"
    ensures Trim("Fill Dirt") == "Fill Dirt"
  {
    TrimUnpadded("105 Vaughn Rd, Laceys Spring, AL 35754");
    TrimUnpadded("Fill Dirt");
  }

  /** The product and the two per-ton price cells of the `Fill Dirt` record are not blank. */
  lemma Record2Filled()
    ensures Trim("Fill Dirt") != "" && Trim(LoadPrice(5000)) != "" && Trim(LoadPrice(5000)) != ""
  {
    Record2Unpadded();
    LoadPriceNotBlank(5000);
  }

  /** The `Fill Dirt` record names a product and fills both price cells, so it is kept. */
  lemma Record2Kept()
    ensures IsDataRow(Record2)
  {
    Record2Filled();
    KeepRecord(
      "Lacey's Spring/Rock Quarry/71501", "105 Vaughn Rd, Laceys Spring, AL 35754", "Fill Dirt",
      LoadPrice(5000), LoadPrice(5000), "CALL");
  }

  /** What each cell of the `Fill Dirt` record parses to. */
  lemma Record2Cells()
    ensures ParseLocation("Lacey's Spring/Rock Quarry/71501") == Location("Lacey's Spring", Some("Rock Quarry"), Some("71501"))
    ensures Trim("105 Vaughn Rd, Laceys Spring, AL 35754") == "105 Vaughn Rd, Laceys Spring, AL 35754" && Trim("Fill Dirt") == "Fill Dirt"
    ensures CleanPrice(LoadPrice(5000), Surcharge) == Some(50.10)
    ensures CleanPrice("CALL", None) == None
  {
    LaceysSpringLocation();
    Record2Unpadded();
    Record2Prices();
  }

  /** The `Fill Dirt` record parses to its product. */
  lemma Record2Product()
    ensures ParseRow(Record2, Surcharge) == Product2
  {
    Record2Cells();
    ParseRecord(
      "Lacey's Spring/Rock Quarry/71501", "105 Vaughn Rd, Laceys Spring, AL 35754", "Fill Dirt",
      LoadPrice(5000), LoadPrice(5000), "CALL",
      Surcharge, Location("Lacey's Spring", Some("Rock Quarry"), Some("71501")),
      "105 Vaughn Rd, Laceys Spring, AL 35754", "Fill Dirt", Some(50.10), Some(50.10), None);
  }

  /** The address and product cells of the `8910s` record need no trimming. */
  lemma Record3Unpadded()
    ensures Trim("40 Sutton Hill Rd, Cherokee, AL 35616") == "40 Sutton Hill Rd, Cherokee, AL 35616"
    ensures Trim("8910s") == "8910s"
  {
    TrimUnpadded("40 Sutton Hill Rd, Cherokee, AL 35616");
    TrimUnpadded("8910s");
  }

  /** The product and the two per-ton price cells of the `8910s` record are not blank. */
  lemma Record3Filled()
    ensures Trim("8910s") != "" && Trim("CALL") != "" && Trim("CALL") != ""
  {
    Record3Unpadded();
    TrimUnpadded("CALL");
  }

  /** The `8910s` record names a product and fills both price cells, so it is kept. */
  lemma Record3Kept()
    ensures IsDataRow(Record3)
  {
    Record3Filled();
    KeepRecord(
      "Cherokee/Rock Quarry/594", "40 Sutton Hill Rd, Cherokee, AL 35616", "8910s",
      "CALL", "CALL", FormatCents(300));
  }

  /** What each cell of the `8910s` record parses to. */
  lemma Record3Cells()
    ensures ParseLocation("Cherokee/Rock Quarry/594") == Location("Cherokee", Some("Rock Quarry"), Some("594"))
    ensures Trim("40 Sutton Hill Rd, Cherokee, AL 35616") == "40 Sutton Hill Rd, Cherokee, AL 35616" && Trim("8910s") == "8910s"
    ensures CleanPrice("CALL", Surcharge) == None
    ensures CleanPrice(FormatCents(300), None) == Some(3.00)
  {
    FullLocation();
    Record3Unpadded();
    Record3Prices();
  }

  /** The `8910s` record parses to its product. */
  lemma Record3Product()
    ensures ParseRow(Record3, Surcharge) == Product3
  {
    Record3Cells();
    ParseRecord(
      "Cherokee/Rock Quarry/594", "40 Sutton Hill Rd, Cherokee, AL 35616", "8910s",
      "CALL", "CALL", FormatCents(300),
      Surcharge, Location("Cherokee", Some("Rock Quarry"), Some("594")),
      "40 Sutton Hill Rd, Cherokee, AL 35616", "8910s", None, None, Some(3.00));
  }

  /** The address and product cells of the `1 1/2"` record need no trimming. */
  lemma Record4Unpadded()
    ensures Trim("15878 Sewanee Hwy, TN 37375") == "15878 Sewanee Hwy, TN 37375"
    ensures Trim("1 1/2\"") == "1 1/2\""
  {
    TrimUnpadded("15878 Sewanee Hwy, TN 37375");
    TrimUnpadded("1 1/2\"");
  }

  /** The product and the two per-ton price cells of the `1 1/2"` record are not blank. */
  lemma Record4Filled()
    ensures Trim("1 1/2\"") != "" && Trim(FormatCents(2400)) != "" && Trim(Dollars(2300)) != ""
  {
    Record4Unpadded();
    NumeralNotBlank(2400);
    DollarsNotBlank(2300);
  }

  /** The `1 1/2"` record names a product and fills both price cells, so it is kept. */
  lemma Record4Kept()
    ensures IsDataRow(Record4)
  {
    Record4Filled();
    KeepRecord(
      "Monteagle/Sand Quarry/71087", "15878 Sewanee Hwy, TN 37375", "1 1/2\"",
      FormatCents(2400), Dollars(2300), "N/A");
  }

  /** What each cell of the `1 1/2"` record parses to. */
  lemma Record4Cells()
    ensures ParseLocation("Monteagle/Sand Quarry/71087") == Location("Monteagle", Some("Sand Quarry"), Some("71087"))
    ensures Trim("15878 Sewanee Hwy, TN 37375") == "15878 Sewanee Hwy, TN 37375" && Trim("1 1/2\"") == "1 1/2\""
    ensures CleanPrice(FormatCents(2400), Surcharge) == Some(24.10)
    ensures CleanPrice(Dollars(2300), Surcharge) == Some(23.10)
    ensures CleanPrice("N/A", None) == None
  {
    MonteagleLocation();
    Record4Unpadded();
    Record4Prices();
  }

  /** The `1 1/2"` record parses to its product. */
  lemma Record4Product()
    ensures ParseRow(Record4, Surcharge) == Product4
  {
    Record4Cells();
    ParseRecord(
      "Monteagle/Sand Quarry/71087", "15878 Sewanee Hwy, TN 37375", "1 1/2\"",
      FormatCents(2400), Dollars(2300), "N/A",
      Surcharge, Location("Monteagle", Some("Sand Quarry"), Some("71087")),
      "15878 Sewanee Hwy, TN 37375", "1 1/2\"", Some(24.10), Some(23.10), None);
  }

  /** The address and product cells of the `Cheap Stone` record need no trimming. */
  lemma Record5Unpadded()
    ensures Trim("Some Address") == "Some Address"
    ensures Trim("Cheap Stone") == "Cheap Stone"
  {
    TrimUnpadded("Some Address");
    TrimUnpadded("Cheap Stone");
  }

  /** The product and the two per-ton price cells of the `Cheap Stone` record are not blank. */
  lemma Record5Filled()
    ensures Trim("Cheap Stone") != "" && Trim(Dollars(1000)) != "" && Trim(Dollars(900)) != ""
  {
    Record5Unpadded();
    DollarsNotBlank(1000);
    DollarsNotBlank(900);
  }

  /** The `Cheap Stone` record names a product and fills both price cells, so it is kept. */
  lemma Record5Kept()
    ensures IsDataRow(Record5)
  {
    Record5Filled();
    KeepRecord(
      "Incomplete/Location", "Some Address", "Cheap Stone",
      Dollars(1000), Dollars(900), Dollars(1500));
  }

  /** What each cell of the `Cheap Stone` record parses to. */
  lemma Record5Cells()
    ensures ParseLocation("Incomplete/Location") == Location("Incomplete", Some("Location"), None)
    ensures Trim("Some Address") == "Some Address" && Trim("Cheap Stone") == "Cheap Stone"
    ensures CleanPrice(Dollars(1000), Surcharge) == Some(10.10)
    ensures CleanPrice(Dollars(900), Surcharge) == Some(9.10)
    ensures CleanPrice(Dollars(1500), None) == Some(15.00)
  {
    IncompleteLocation();
    Record5Unpadded();
    Record5Prices();
  }

  /** The `Cheap Stone` record parses to its product. */
  lemma Record5Product()
    ensures ParseRow(Record5, Surcharge) == Product5
  {
    Record5Cells();
    ParseRecord(
      "Incomplete/Location", "Some Address", "Cheap Stone",
      Dollars(1000), Dollars(900), Dollars(1500),
      Surcharge, Location("Incomplete", Some("Location"), None),
      "Some Address", "Cheap Stone", Some(10.10), Some(9.10), Some(15.00));
  }

  /** Five kept records, an empty record and a dropped record gather to the
      five records' products, in order. */
  lemma FiveKeptTwoDropped(r1: Row, r2: Row, r3: Row, r4: Row, r5: Row, r7: Row,
                           keep: Row -> bool, parse: Row -> Product)
    requires keep(r1) && keep(r2) && keep(r3) && keep(r4) && keep(r5)
    requires !keep([]) && !keep(r7)
    ensures Gather([r1, r2, r3, r4, r5, [], r7], keep, parse)
         == [parse(r1), parse(r2), parse(r3), parse(r4), parse(r5)]
  {
    var data := [r1, r2, r3, r4, r5];
    var dropped: seq<Row> := [[], r7];
    assert [r1, r2, r3, r4, r5, [], r7] == data + dropped;
    GatherKeptThenDropped(data, dropped, keep, parse);
  }

  /** The record with a location but no product or prices is skipped. */
  lemma Record7Skipped()
    ensures !IsDataRow(Record7)
  {
    BlankRecordSkipped("Lacey's Spring/Rock Quarry/71501", "105 Vaughn Rd, Laceys Spring, AL 35754");
  }

  /** The sheet's records after the header: the five product records are
      kept, in file order, and the empty and blank records are not. */
  lemma SheetRecordsKept()
    ensures Gather(Sheet[1..], IsDataRow, Parser(Surcharge))
         == [ParseRow(Record1, Surcharge), ParseRow(Record2, Surcharge), ParseRow(Record3, Surcharge),
             ParseRow(Record4, Surcharge), ParseRow(Record5, Surcharge)]
  {
    Record1Kept();
    Record2Kept();
    Record3Kept();
    Record4Kept();
    Record5Kept();
    EmptyRecordSkipped();
    Record7Skipped();
    assert Sheet[1..] == [Record1, Record2, Record3, Record4, Record5, [], Record7];
    FiveKeptTwoDropped(Record1, Record2, Record3, Record4, Record5, Record7, IsDataRow, Parser(Surcharge));
  }

  /** The parser turns the sheet into the five products, in file order,
      skipping the empty record and the record without product or prices. */
  lemma SheetParses()
    ensures ParseCsv(Some(Sheet), Surcharge) == Products
  {
    SheetRecordsKept();
    SheetProducts();
  }

  /** The five product records give the five products. */
  lemma SheetProducts()
    ensures [ParseRow(Record1, Surcharge), ParseRow(Record2, Surcharge), ParseRow(Record3, Surcharge),
             ParseRow(Record4, Surcharge), ParseRow(Record5, Surcharge)] == Products
  {
    Record1Product();
    Record2Product();
    Record3Product();
    Record4Product();
    Record5Product();
  }

  /** An empty record is skipped. */
  lemma EmptyRecordSkipped()
    ensures !IsDataRow([])
  {
    assert Trim([]) == [] by { TrimUnpadded([]); }
  }

  /** A record with a blank product and blank prices is skipped. */
  lemma BlankRecordSkipped(location: string, address: string)
    ensures !IsDataRow([location, address, "", "", "", ""])
  {
    assert Trim([]) == [] by { TrimUnpadded([]); }
  }

  /** Ten tons of each product at the test's prices. */
  lemma TotalCostExamples()
    ensures CalculateTotalCost(Product1, 10.0, false, false) == Some(201.0)
    ensures CalculateTotalCost(Product1, 10.0, true, false) == Some(191.0)
    ensures CalculateTotalCost(Product1, 10.0, true, true) == Some(216.0)
    ensures CalculateTotalCost(Product2, 10.0, false, true) == Some(501.0)
    ensures CalculateTotalCost(Product3, 10.0, false, false) == None
  {
  }

  /** Without delivery, Cheap Stone at 10.10 a ton is the cheapest. */
  lemma CheapestWithoutDelivery()
    ensures FindCheapestProduct(Products, 10.0, false, false) == Some((Product5, 101.0))
  {
    var r := FindCheapestProduct(Products, 10.0, false, false);
    assert CalculateTotalCost(Products[0], 10.0, false, false) == Some(201.0);
    assert CalculateTotalCost(Products[1], 10.0, false, false) == Some(501.0);
    assert CalculateTotalCost(Products[2], 10.0, false, false) == None;
    assert CalculateTotalCost(Products[3], 10.0, false, false) == Some(241.0);
    assert CalculateTotalCost(Products[4], 10.0, false, false) == Some(101.0);
    assert r.Some?;
    assert r.value.1 <= 101.0;
  }

  /** With delivery for an account holder, #89 Stone at 19.10 + 2.50 a ton
      beats Cheap Stone at 9.10 + 15.00. */
  lemma CheapestWithDelivery()
    ensures FindCheapestProduct(Products, 10.0, true, true) == Some((Product1, 216.0))
  {
    var r := FindCheapestProduct(Products, 10.0, true, true);
    assert CalculateTotalCost(Products[0], 10.0, true, true) == Some(216.0);
    assert CalculateTotalCost(Products[1], 10.0, true, true) == Some(501.0);
    assert CalculateTotalCost(Products[2], 10.0, true, true) == None;
    assert CalculateTotalCost(Products[3], 10.0, true, true) == Some(231.0);
    assert CalculateTotalCost(Products[4], 10.0, true, true) == Some(241.0);
    assert r.Some?;
    assert r.value.1 <= 216.0;
  }

  /** A list whose only product has no price has no cheapest product. */
  lemma NoCheapestWithoutPrices()
    ensures FindCheapestProduct([Product3], 10.0, false, false) == None
  {
    assert CalculateTotalCost([Product3][0], 10.0, false, false) == None;
  }

  /** `cherokee` names Cherokee whatever the case; the other locations have
      names of other lengths. */
  lemma CherokeeIgnoringCase()
    ensures EqualsIgnoreCase("Cherokee", "cherokee") && EqualsIgnoreCase("Cherokee", "Cherokee")
    ensures !EqualsIgnoreCase("Lacey's Spring", "cherokee") && !EqualsIgnoreCase("Lacey's Spring", "Cherokee")
    ensures !EqualsIgnoreCase("Monteagle", "cherokee") && !EqualsIgnoreCase("Monteagle", "Cherokee")
    ensures !EqualsIgnoreCase("Incomplete", "cherokee") && !EqualsIgnoreCase("Incomplete", "Cherokee")
  {
  }

  /** What filtering keeps of one product. */
  function Keep(p: Product, name: Option<string>, number: Option<string>): seq<Product> {
    if MatchesLocation(p, name, number) then [p] else []
  }

  /** Filtering a list of five filters each of its products. */
  lemma FilterFive(p1: Product, p2: Product, p3: Product, p4: Product, p5: Product,
                   name: Option<string>, number: Option<string>)
    ensures FilterProducts([p1, p2, p3, p4, p5], name, number)
         == Keep(p1, name, number) + Keep(p2, name, number) + Keep(p3, name, number)
          + Keep(p4, name, number) + Keep(p5, name, number)
  {
    var ps := [p1, p2, p3, p4, p5];
    assert ps[..4] == [p1, p2, p3, p4];
    assert ps[..4][..3] == [p1, p2, p3];
    assert ps[..4][..3][..2] == [p1, p2];
    assert ps[..4][..3][..2][..1] == [p1];
    assert FilterProducts([p1], name, number) == Keep(p1, name, number);
    assert FilterProducts([p1, p2], name, number) == Keep(p1, name, number) + Keep(p2, name, number);
    assert FilterProducts([p1, p2, p3], name, number) == Keep(p1, name, number) + Keep(p2, name, number) + Keep(p3, name, number);
    assert FilterProducts([p1, p2, p3, p4], name, number)
        == Keep(p1, name, number) + Keep(p2, name, number) + Keep(p3, name, number) + Keep(p4, name, number);
  }

  /** Which products the lower-case name `cherokee` matches. */
  lemma MatchName()
    ensures MatchesLocation(Product1, Some("cherokee"), None) && MatchesLocation(Product3, Some("cherokee"), None)
    ensures !MatchesLocation(Product2, Some("cherokee"), None) && !MatchesLocation(Product4, Some("cherokee"), None)
    ensures !MatchesLocation(Product5, Some("cherokee"), None)
  {
    CherokeeIgnoringCase();
  }

  /** Filtering by name ignores case. */
  lemma FilterByName()
    ensures FilterProducts(Products, Some("cherokee"), None) == [Product1, Product3]
  {
    MatchName();
    FilterFive(Product1, Product2, Product3, Product4, Product5, Some("cherokee"), None);
  }

  /** Filtering by number alone. */
  lemma FilterByNumber()
    ensures FilterProducts(Products, None, Some("71501")) == [Product2]
  {
    FilterFive(Product1, Product2, Product3, Product4, Product5, None, Some("71501"));
  }

  /** Which products the name `Cherokee` matches together with a number. */
  lemma MatchNameAndNumber()
    ensures MatchesLocation(Product1, Some("Cherokee"), Some("594")) && MatchesLocation(Product3, Some("Cherokee"), Some("594"))
    ensures !MatchesLocation(Product2, Some("Cherokee"), Some("594")) && !MatchesLocation(Product4, Some("Cherokee"), Some("594"))
    ensures !MatchesLocation(Product5, Some("Cherokee"), Some("594"))
    ensures forall p :: p in Products ==> !MatchesLocation(p, Some("Cherokee"), Some("71501"))
  {
    CherokeeIgnoringCase();
  }

  /** Both criteria must hold: `Cherokee` with its own number keeps its two
      products, with another location's number none. */
  lemma FilterByNameAndNumber()
    ensures FilterProducts(Products, Some("Cherokee"), Some("594")) == [Product1, Product3]
    ensures FilterProducts(Products, Some("Cherokee"), Some("71501")) == []
  {
    MatchNameAndNumber();
    FilterFive(Product1, Product2, Product3, Product4, Product5, Some("Cherokee"), Some("594"));
    FilterFive(Product1, Product2, Product3, Product4, Product5, Some("Cherokee"), Some("71501"));
  }

  /** Without criteria all five products come back. */
  lemma FilterWithoutCriteriaExample()
    ensures FilterProducts(Products, None, None) == Products
  {
    FilterWithoutCriteria(Products);
  }
}
