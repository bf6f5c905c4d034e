/** The aggregate price-sheet parser (`DataParser`): rows of a quarry price
    sheet become products with a split location, cleaned prices (an optional
    surcharge added to the two per-ton prices), and the queries run over
    them: total job cost, the cheapest product, and filtering by location.
    `data_parser.py` is not part of this model; what is modelled here is the
    behaviour `test_data_parser.py` pins down. Python `Decimal`s are exact
    reals here. */
module PriceSheet {
  import opened Wrappers
  import opened Text

  // ---------------------------------------------------------------------------
  // Decimal numerals
  // ---------------------------------------------------------------------------

  /** The amount `units` stands for when its last `places` digits follow the
      decimal point: `units` divided by ten, `places` times. */
  function Scaled(units: nat, places: nat): real
  {
    if places == 0 then units as real else Scaled(units, places - 1) / 10.0
  }

  /** Two places are hundredths. */
  lemma ScaledCents(cents: nat)
    ensures Scaled(cents, 2) == cents as real / 100.0
  {
    assert Scaled(cents, 1) == cents as real / 10.0;
  }

  /** What reading a numeral left to right has seen so far: the value of its
      digits taken as one whole number, how many of them follow the point,
      whether a point was seen, and how many digits there were. */
  datatype NumeralScan = NumeralScan(units: nat, places: nat, point: bool, digits: nat)

  /** Reads `s` as digits with at most one point; None at any other character. */
  function ScanNumeral(s: string): Option<NumeralScan>
  {
    if |s| == 0 then Some(NumeralScan(0, 0, false, 0))
    else
      var c := s[|s| - 1];
      match ScanNumeral(s[..|s| - 1])
      case None => None
      case Some(n) =>
        if IsDigit(c) then
          Some(NumeralScan(n.units * 10 + DigitValue(c), if n.point then n.places + 1 else 0, n.point, n.digits + 1))
        else if c == '.' && !n.point then Some(n.(point := true))
        else None
  }

  /** `Decimal(s)` on a plain numeral: digits, optionally a point and more
      digits, at least one digit in all. Anything else is None. */
  function ParseDecimal(s: string): Option<real> {
    match ScanNumeral(s)
    case Some(n) => if n.digits > 0 then Some(Scaled(n.units, n.places)) else None
    case None => None
  }

  /** A character other than a digit or a point anywhere makes the text no numeral. */
  lemma {:induction false} ScanRejects(s: string, i: nat)
    requires i < |s| && !IsDigit(s[i]) && s[i] != '.'
    ensures ScanNumeral(s) == None && ParseDecimal(s) == None
  {
    if i < |s| - 1 {
      ScanRejects(s[..|s| - 1], i);
    }
  }

  /** A string of digits scans to its value, with no point. */
  lemma {:induction false} ScanDigits(w: string)
    requires IsDigits(w)
    ensures ScanNumeral(w) == Some(NumeralScan(DigitsValue(w), 0, false, |w|))
  {
    if |w| > 0 {
      ScanDigits(w[..|w| - 1]);
    }
  }

  /** A whole number of cents written the way the sheet writes money:
      dollars, a point, two digits (`2050` is `20.50`). */
  function FormatCents(cents: nat): string {
    NatToString(cents / 100) + "." + [DigitChar(cents % 100 / 10), DigitChar(cents % 10)]
  }

  /** A money amount written with two decimals reads back as that amount. */
  lemma ParseFormatCents(cents: nat)
    ensures ParseDecimal(FormatCents(cents)) == Some(Scaled(cents, 2))
  {
    var w := NatToString(cents / 100);
    var a := DigitChar(cents % 100 / 10);
    var b := DigitChar(cents % 10);
    var s := FormatCents(cents);
    ScanDigits(w);
    NatToStringRoundTrip(cents / 100);
    var wp := w + ".";
    assert wp[..|wp| - 1] == w;
    assert ScanNumeral(wp) == Some(NumeralScan(cents / 100, 0, true, |w|));
    var wpa := wp + [a];
    assert wpa[..|wpa| - 1] == wp;
    assert ScanNumeral(wpa) == Some(NumeralScan(cents / 100 * 10 + cents % 100 / 10, 1, true, |w| + 1));
    assert s == wpa + [b];
    assert s[..|s| - 1] == wpa;
    assert ScanNumeral(s) == Some(NumeralScan(cents, 2, true, |w| + 2));
  }

  // ---------------------------------------------------------------------------
  // Price cleaning
  // ---------------------------------------------------------------------------

  /** Cell values that stand for "no price". */
  predicate IsNoPriceMarker(t: string) {
    t == "" || t == "CALL" || t == "N/A"
  }

  const PerLoad: string := "per load"

  predicate EndsWith(s: string, suffix: string) {
    |suffix| <= |s| && s[|s| - |suffix|..] == suffix
  }

  /** `t` without a leading `$`. */
  function StripDollar(t: string): string {
    if |t| > 0 && t[0] == '$' then t[1..] else t
  }

  /** `t` without a trailing `per load`. */
  function StripPerLoad(t: string): string {
    if EndsWith(t, PerLoad) then t[..|t| - |PerLoad|] else t
  }

  /** The numeral inside a price cell: a leading `$` and a trailing `per load`
      removed, surrounding whitespace trimmed. */
  function PriceText(s: string): string {
    Trim(StripPerLoad(StripDollar(Trim(s))))
  }

  /** `_clean_price`: None for a blank, `CALL` or `N/A` cell and for text that
      is not a numeral (the parser logs a warning for the latter); otherwise
      the amount plus the surcharge, if one is configured. */
  function CleanPrice(s: string, surcharge: Option<real>): Option<real> {
    if IsNoPriceMarker(Trim(s)) then None
    else match ParseDecimal(PriceText(s))
      case None => None
      case Some(v) => Some(v + surcharge.GetOr(0.0))
  }

  /** The surcharge is added exactly once to every price that parses, and a
      parser without one keeps the sheet's amount. */
  lemma SurchargeAddsExactly(s: string, surcharge: real)
    ensures CleanPrice(s, Some(surcharge)).Some? <==> CleanPrice(s, None).Some?
    ensures CleanPrice(s, Some(surcharge)).Some? ==>
      CleanPrice(s, Some(surcharge)).value == CleanPrice(s, None).value + surcharge
  {
  }

  /** `CALL` and `N/A` have no price, with or without a surcharge. */
  lemma NoPriceMarkers(surcharge: Option<real>)
    ensures CleanPrice("CALL", surcharge) == None
    ensures CleanPrice("N/A", surcharge) == None
  {
    MarkerHasNoPrice("CALL", surcharge);
    MarkerHasNoPrice("N/A", surcharge);
  }

  /** A marker written without surrounding whitespace has no price. */
  lemma MarkerHasNoPrice(t: string, surcharge: Option<real>)
    requires IsNoPriceMarker(t) && (t == [] || (!IsSpace(t[0]) && !IsSpace(t[|t| - 1])))
    ensures CleanPrice(t, surcharge) == None
  {
    TrimUnpadded(t);
  }

  /** Unpadded text that neither starts like a numeral nor carries a `$` or a
      `per load` has no price. */
  lemma NonNumeralHasNoPrice(t: string, surcharge: Option<real>)
    requires |t| > 0 && !IsSpace(t[0]) && !IsSpace(t[|t| - 1])
    requires !IsDigit(t[0]) && t[0] != '.' && t[0] != '$' && !EndsWith(t, PerLoad)
    ensures CleanPrice(t, surcharge) == None
  {
    TrimUnpadded(t);
    assert PriceText(t) == t;
    ScanRejects(t, 0);
  }

  /** A numeral as the sheet writes amounts: it starts and ends with a digit. */
  predicate IsAmountText(d: string) {
    |d| > 0 && IsDigit(d[0]) && IsDigit(d[|d| - 1])
  }

  /** A two-decimal amount is such a numeral. */
  lemma FormatCentsShape(cents: nat)
    ensures IsAmountText(FormatCents(cents))
  {
    var w := NatToString(cents / 100);
    var d := FormatCents(cents);
    assert d == w + "." + [DigitChar(cents % 100 / 10), DigitChar(cents % 10)];
    assert d[0] == w[0];
  }

  /** The numeral inside `24.00` is `24.00` itself. */
  lemma {:induction false} PriceTextOfNumeral(d: string)
    requires IsAmountText(d)
    ensures Trim(d) == d && PriceText(d) == d
  {
    TrimUnpadded(d);
    assert StripDollar(d) == d;
    assert d[|d| - 1] != PerLoad[|PerLoad| - 1];
    assert StripPerLoad(d) == d;
  }

  /** The numeral inside `$24.00` is `24.00`. */
  lemma {:induction false} PriceTextOfDollars(d: string)
    requires IsAmountText(d)
    ensures Trim("$" + d) == "$" + d && PriceText("$" + d) == d
  {
    var sd := "$" + d;
    assert sd[0] == '$' && sd[|sd| - 1] == d[|d| - 1];
    TrimUnpadded(sd);
    assert sd[1..] == d;
    assert StripDollar(sd) == d;
    PriceTextOfNumeral(d);
  }

  /** The numeral inside `$24.00 per load` is `24.00`. */
  lemma {:induction false} PriceTextOfLoadPrice(d: string)
    requires IsAmountText(d)
    ensures Trim("$" + d + " " + PerLoad) == "$" + d + " " + PerLoad
    ensures PriceText("$" + d + " " + PerLoad) == d
  {
    var sdl := "$" + d + " " + PerLoad;
    assert sdl[|sdl| - 1] == 'd';
    TrimUnpadded(sdl);
    var nd := sdl[1..];
    assert nd == d + " " + PerLoad;
    assert StripDollar(sdl) == nd;
    assert EndsWith(nd, PerLoad);
    assert nd[..|nd| - |PerLoad|] == d + " ";
    assert StripPerLoad(nd) == d + " ";
    assert TrimStart(d + " ") == d + " ";
    assert TrimEnd(d + " ") == d by {
      assert (d + " ")[..|d|] == d;
      TrimUnpadded(d);
    }
  }

  /** Text starting with a digit or a dollar sign is not a no-price marker. */
  lemma NotNoPriceMarker(t: string)
    requires |t| > 0 && (IsDigit(t[0]) || t[0] == '$')
    ensures !IsNoPriceMarker(t)
  {
    assert t[0] != "CALL"[0] && t[0] != "N/A"[0];
  }

  /** A cell with no surrounding whitespace, starting with a digit or `$`,
      whose numeral reads as `v`, cleans to `v` plus the surcharge. */
  lemma {:induction false} CleanPriceOfNumeral(s: string, d: string, v: real, surcharge: Option<real>)
    requires |s| > 0 && (IsDigit(s[0]) || s[0] == '$') && Trim(s) == s
    requires PriceText(s) == d && ParseDecimal(d) == Some(v)
    ensures CleanPrice(s, surcharge) == Some(v + surcharge.GetOr(0.0))
  {
    NotNoPriceMarker(s);
  }

  /** `24.00`, `$24.00` and `$24.00 per load` all clean to the amount 24.00
      plus the surcharge. */
  lemma {:induction false} DollarAmountsClean(d: string, v: real, surcharge: Option<real>)
    requires IsAmountText(d) && ParseDecimal(d) == Some(v)
    ensures CleanPrice(d, surcharge) == Some(v + surcharge.GetOr(0.0))
    ensures CleanPrice("$" + d, surcharge) == Some(v + surcharge.GetOr(0.0))
    ensures CleanPrice("$" + d + " " + PerLoad, surcharge) == Some(v + surcharge.GetOr(0.0))
  {
    PriceTextOfNumeral(d);
    CleanPriceOfNumeral(d, d, v, surcharge);
    PriceTextOfDollars(d);
    CleanPriceOfNumeral("$" + d, d, v, surcharge);
    PriceTextOfLoadPrice(d);
    CleanPriceOfNumeral("$" + d + " " + PerLoad, d, v, surcharge);
  }

  // ---------------------------------------------------------------------------
  // Rows and products
  // ---------------------------------------------------------------------------

  /** The location column `Name/Type/Number`, split on `/`. */
  datatype Location = Location(name: string, kind: Option<string>, number: Option<string>)

  /** The name is the first part; the type and number are there only when the
      column has that many parts. */
  function ParseLocation(field: string): Location {
    var parts := Split(field, '/');
    Location(Trim(parts[0]),
             if |parts| > 1 then Some(Trim(parts[1])) else None,
             if |parts| > 2 then Some(Trim(parts[2])) else None)
  }

  /** Text that survives trimming and splitting on `/` unchanged. */
  predicate IsPlainPart(s: string) {
    '/' !in s && (s == [] || (!IsSpace(s[0]) && !IsSpace(s[|s| - 1])))
  }

  /** `Name/Type/Number` gives back its three parts. */
  lemma ParseLocationThreeParts(name: string, kind: string, number: string)
    requires IsPlainPart(name) && IsPlainPart(kind) && IsPlainPart(number)
    ensures ParseLocation(name + "/" + kind + "/" + number) == Location(name, Some(kind), Some(number))
  {
    var three := [name, kind, number];
    assert Join([number], '/') == number;
    assert [kind, number][1..] == [number];
    assert Join([kind, number], '/') == kind + "/" + number;
    assert three[1..] == [kind, number];
    assert Join(three, '/') == name + "/" + kind + "/" + number;
    SplitJoin(three, '/');
    TrimUnpadded(name);
    TrimUnpadded(kind);
    TrimUnpadded(number);
  }

  /** `Name/Type` gives back its two parts and no number. */
  lemma ParseLocationTwoParts(name: string, kind: string)
    requires IsPlainPart(name) && IsPlainPart(kind)
    ensures ParseLocation(name + "/" + kind) == Location(name, Some(kind), None)
  {
    var two := [name, kind];
    assert two[1..] == [kind];
    assert Join([kind], '/') == kind;
    assert Join(two, '/') == name + "/" + kind;
    SplitJoin(two, '/');
    TrimUnpadded(name);
    TrimUnpadded(kind);
  }

  /** A parsed product. */
  datatype Product = Product(
    locationName: string, locationType: Option<string>, locationNumber: Option<string>,
    address: string, productName: string,
    priceNonAccount: Option<real>, priceAccount: Option<real>, deliveryCostPerTon: Option<real>)

  /** One CSV record, cells in column order: location, address, product,
      non-account price, account price, delivery cost. */
  type Row = seq<string>

  /** A cell, empty when the record is shorter. */
  function Cell(row: Row, i: nat): string {
    if i < |row| then row[i] else ""
  }

  /** Records kept by the parser: a product and both per-ton prices present. */
  predicate IsDataRow(row: Row) {
    Trim(Cell(row, 2)) != "" && Trim(Cell(row, 3)) != "" && Trim(Cell(row, 4)) != ""
  }

  /** A kept record as a product: the surcharge goes on the two per-ton
      prices, not on the delivery cost. */
  function ParseRow(row: Row, surcharge: Option<real>): Product {
    var loc := ParseLocation(Cell(row, 0));
    Product(loc.name, loc.kind, loc.number,
            Trim(Cell(row, 1)), Trim(Cell(row, 2)),
            CleanPrice(Cell(row, 3), surcharge), CleanPrice(Cell(row, 4), surcharge),
            CleanPrice(Cell(row, 5), None))
  }

  /** A six-cell record gives the product assembled from what its cells parse
      to. */
  lemma ParseRecord(c0: string, c1: string, c2: string, c3: string, c4: string, c5: string,
                    surcharge: Option<real>, loc: Location, address: string, name: string,
                    nonAccount: Option<real>, account: Option<real>, delivery: Option<real>)
    requires ParseLocation(c0) == loc && Trim(c1) == address && Trim(c2) == name
    requires CleanPrice(c3, surcharge) == nonAccount && CleanPrice(c4, surcharge) == account
    requires CleanPrice(c5, None) == delivery
    ensures ParseRow([c0, c1, c2, c3, c4, c5], surcharge)
         == Product(loc.name, loc.kind, loc.number, address, name, nonAccount, account, delivery)
  {
  }

  /** A six-cell record with a product and both per-ton prices is kept. */
  lemma KeepRecord(c0: string, c1: string, c2: string, c3: string, c4: string, c5: string)
    requires Trim(c2) != "" && Trim(c3) != "" && Trim(c4) != ""
    ensures IsDataRow([c0, c1, c2, c3, c4, c5])
  {
    var row := [c0, c1, c2, c3, c4, c5];
    assert Cell(row, 2) == c2 && Cell(row, 3) == c3 && Cell(row, 4) == c4;
  }

  /** The records `keep` accepts, in file order, each turned into a product
      by `parse`. The parser uses it with `IsDataRow` and `ParseRow`; the
      lemmas below hold for any such pair. */
  function Gather(rows: seq<Row>, keep: Row -> bool, parse: Row -> Product): (ps: seq<Product>)
    ensures |ps| <= |rows|
  {
    if |rows| == 0 then []
    else
      var last := rows[|rows| - 1];
      Gather(rows[..|rows| - 1], keep, parse) + (if keep(last) then [parse(last)] else [])
  }

  /** Every product comes from a kept record, and every kept record gives a product. */
  lemma {:induction false} GatherSources(rows: seq<Row>, keep: Row -> bool, parse: Row -> Product)
    ensures forall p :: p in Gather(rows, keep, parse) <==>
      exists i :: 0 <= i < |rows| && keep(rows[i]) && p == parse(rows[i])
  {
    if |rows| > 0 {
      var prefix := rows[..|rows| - 1];
      var last := rows[|rows| - 1];
      GatherSources(prefix, keep, parse);
      var earlier := Gather(prefix, keep, parse);
      var ps := Gather(rows, keep, parse);
      assert ps == earlier + (if keep(last) then [parse(last)] else []);
      forall p | p in ps
        ensures exists i :: 0 <= i < |rows| && keep(rows[i]) && p == parse(rows[i])
      {
        if p in earlier {
          var i :| 0 <= i < |prefix| && keep(prefix[i]) && p == parse(prefix[i]);
          assert rows[i] == prefix[i];
        } else {
          assert keep(rows[|rows| - 1]) && p == parse(rows[|rows| - 1]);
        }
      }
      forall i | 0 <= i < |rows| && keep(rows[i])
        ensures parse(rows[i]) in ps
      {
        if i < |rows| - 1 {
          assert prefix[i] == rows[i];
          assert parse(prefix[i]) in earlier;
        }
      }
    }
  }

  /** Parsing a sheet in two pieces parses each piece in turn: records are
      handled one by one, in file order. */
  lemma {:induction false} GatherAppend(a: seq<Row>, b: seq<Row>, keep: Row -> bool, parse: Row -> Product)
    ensures Gather(a + b, keep, parse) == Gather(a, keep, parse) + Gather(b, keep, parse)
    decreases |b|
  {
    if |b| > 0 {
      var b' := b[..|b| - 1];
      assert (a + b)[..|a + b| - 1] == a + b';
      assert (a + b)[|a + b| - 1] == b[|b| - 1];
      GatherAppend(a, b', keep, parse);
    } else {
      assert a + b == a;
    }
  }

  /** Records that are all kept give one product each, in file order. */
  lemma {:induction false} GatherAllKept(rows: seq<Row>, keep: Row -> bool, parse: Row -> Product)
    requires forall i :: 0 <= i < |rows| ==> keep(rows[i])
    ensures var ps := Gather(rows, keep, parse);
      |ps| == |rows| && forall i :: 0 <= i < |rows| ==> ps[i] == parse(rows[i])
  {
    if |rows| > 0 {
      GatherAllKept(rows[..|rows| - 1], keep, parse);
    }
  }

  /** Records that are all dropped give nothing. */
  lemma {:induction false} GatherNoneKept(rows: seq<Row>, keep: Row -> bool, parse: Row -> Product)
    requires forall i :: 0 <= i < |rows| ==> !keep(rows[i])
    ensures Gather(rows, keep, parse) == []
  {
    if |rows| > 0 {
      GatherNoneKept(rows[..|rows| - 1], keep, parse);
    }
  }

  /** How the parser turns a data record into a product. */
  function Parser(surcharge: Option<real>): Row -> Product {
    (r: Row) => ParseRow(r, surcharge)
  }

  /** The records after the first, gathered: a product is there exactly when
      some kept record after the first gives it. */
  lemma {:induction false} GatherAfterFirst(rows: seq<Row>, keep: Row -> bool, parse: Row -> Product)
    requires |rows| > 0
    ensures forall p :: p in Gather(rows[1..], keep, parse) <==>
      exists i :: 1 <= i < |rows| && keep(rows[i]) && p == parse(rows[i])
  {
    var body := rows[1..];
    GatherSources(body, keep, parse);
    forall p
      ensures p in Gather(body, keep, parse) <==>
        exists i :: 1 <= i < |rows| && keep(rows[i]) && p == parse(rows[i])
    {
      if p in Gather(body, keep, parse) {
        var j :| 0 <= j < |body| && keep(body[j]) && p == parse(body[j]);
        assert body[j] == rows[j + 1];
      }
      if exists i :: 1 <= i < |rows| && keep(rows[i]) && p == parse(rows[i]) {
        var i :| 1 <= i < |rows| && keep(rows[i]) && p == parse(rows[i]);
        assert body[i - 1] == rows[i];
      }
    }
  }

  /** `parse_csv`: the header record is skipped, then each data record gives a
      product; a missing file (None) gives an empty list (the parser logs
      "File not found"). */
  function ParseCsv(file: Option<seq<Row>>, surcharge: Option<real>): (ps: seq<Product>)
    ensures file.None? ==> ps == []
    ensures file.Some? ==> |ps| < |file.value| || ps == []
  {
    match file
    case None => []
    case Some(rows) => if |rows| == 0 then [] else Gather(rows[1..], IsDataRow, Parser(surcharge))
  }

  /** A product is parsed exactly when some data record after the header
      gives it. */
  lemma ParseCsvSources(rows: seq<Row>, surcharge: Option<real>)
    ensures forall p :: p in ParseCsv(Some(rows), surcharge) <==>
      exists i :: 1 <= i < |rows| && IsDataRow(rows[i]) && p == ParseRow(rows[i], surcharge)
  {
    if |rows| > 0 {
      GatherAfterFirst(rows, IsDataRow, Parser(surcharge));
    }
  }

  /** Kept records followed by dropped ones: the kept ones, in order. */
  lemma GatherKeptThenDropped(kept: seq<Row>, dropped: seq<Row>, keep: Row -> bool, parse: Row -> Product)
    requires forall i :: 0 <= i < |kept| ==> keep(kept[i])
    requires forall i :: 0 <= i < |dropped| ==> !keep(dropped[i])
    ensures var ps := Gather(kept + dropped, keep, parse);
      |ps| == |kept| && forall i :: 0 <= i < |kept| ==> ps[i] == parse(kept[i])
  {
    GatherAppend(kept, dropped, keep, parse);
    GatherAllKept(kept, keep, parse);
    GatherNoneKept(dropped, keep, parse);
    assert Gather(kept, keep, parse) + [] == Gather(kept, keep, parse);
  }

  /** The records after a header that leads two runs of records. */
  lemma AfterHeader(header: Row, a: seq<Row>, b: seq<Row>)
    ensures ([header] + a + b)[1..] == a + b
  {
  }

  /** A header, then data records, then records without product or prices:
      every data record is kept, in file order, and nothing else. */
  lemma ParseCsvKeepsDataRecords(header: Row, data: seq<Row>, skipped: seq<Row>, surcharge: Option<real>)
    requires forall i :: 0 <= i < |data| ==> IsDataRow(data[i])
    requires forall i :: 0 <= i < |skipped| ==> !IsDataRow(skipped[i])
    ensures var ps := ParseCsv(Some([header] + data + skipped), surcharge);
      |ps| == |data| && forall i :: 0 <= i < |data| ==> ps[i] == ParseRow(data[i], surcharge)
  {
    var parse := Parser(surcharge);
    var ps := Gather(data + skipped, IsDataRow, parse);
    assert ParseCsv(Some([header] + data + skipped), surcharge) == ps by {
      AfterHeader(header, data, skipped);
    }
    assert |ps| == |data| && forall i :: 0 <= i < |data| ==> ps[i] == parse(data[i]) by {
      GatherKeptThenDropped(data, skipped, IsDataRow, parse);
    }
    forall i | 0 <= i < |data| ensures ps[i] == ParseRow(data[i], surcharge) {
      assert ps[i] == parse(data[i]);
    }
  }

  // ---------------------------------------------------------------------------
  // Cost queries
  // ---------------------------------------------------------------------------

  /** `calculate_total_cost`: the load times the per-ton price (account or
      non-account), plus the delivery cost per ton only when asked for and
      known. None when the price itself is unknown. */
  function CalculateTotalCost(p: Product, tons: real, isAccountHolder: bool, includeDelivery: bool): Option<real> {
    var base := if isAccountHolder then p.priceAccount else p.priceNonAccount;
    match base
    case None => None
    case Some(price) =>
      var perTon := if includeDelivery && p.deliveryCostPerTon.Some? then price + p.deliveryCostPerTon.value else price;
      Some(tons * perTon)
  }

  /** Asking for delivery adds the delivery cost of the whole load when that
      cost is known, and changes nothing when it is not: an unknown delivery
      cost never makes the total unknown. */
  lemma DeliveryAddsItsCost(p: Product, tons: real, isAccountHolder: bool)
    ensures var without := CalculateTotalCost(p, tons, isAccountHolder, false);
      var with := CalculateTotalCost(p, tons, isAccountHolder, true);
      && (with.Some? <==> without.Some?)
      && (p.deliveryCostPerTon.None? ==> with == without)
      && (with.Some? && p.deliveryCostPerTon.Some? ==>
            with.value == without.value + tons * p.deliveryCostPerTon.value)
  {
    var base := if isAccountHolder then p.priceAccount else p.priceNonAccount;
    if base.Some? {
      assert CalculateTotalCost(p, tons, isAccountHolder, false).value == tons * base.value;
      if p.deliveryCostPerTon.Some? {
        assert CalculateTotalCost(p, tons, isAccountHolder, true).value
            == tons * (base.value + p.deliveryCostPerTon.value);
      } else {
        assert CalculateTotalCost(p, tons, isAccountHolder, true).value == tons * base.value;
      }
    }
  }

  /** The account flag only chooses which per-ton price is used: an account
      holder pays what a non-account holder would at the account price. */
  lemma AccountFlagChoosesPrice(p: Product, tons: real, includeDelivery: bool)
    ensures CalculateTotalCost(p, tons, true, includeDelivery)
         == CalculateTotalCost(p.(priceNonAccount := p.priceAccount), tons, false, includeDelivery)
  {
    var q := p.(priceNonAccount := p.priceAccount);
    if p.priceAccount.Some? {
      var price := p.priceAccount.value;
      var perTon := if includeDelivery && p.deliveryCostPerTon.Some? then price + p.deliveryCostPerTon.value else price;
      assert CalculateTotalCost(p, tons, true, includeDelivery).value == tons * perTon;
      assert CalculateTotalCost(q, tons, false, includeDelivery).value == tons * perTon;
    }
  }

  /** The total is the cost of one ton times the load, and it is known exactly
      when the applicable per-ton price is. */
  lemma CostScalesWithLoad(p: Product, tons: real, isAccountHolder: bool, includeDelivery: bool)
    ensures var c := CalculateTotalCost(p, tons, isAccountHolder, includeDelivery);
      var one := CalculateTotalCost(p, 1.0, isAccountHolder, includeDelivery);
      && (c.Some? <==> (if isAccountHolder then p.priceAccount else p.priceNonAccount).Some?)
      && (c.Some? <==> one.Some?)
      && (c.Some? ==> c.value == tons * one.value)
  {
  }

  /** `find_cheapest_product`: the product with the least cost among those
      whose cost is known, with that cost. */
  function FindCheapestProduct(ps: seq<Product>, tons: real, isAccountHolder: bool, includeDelivery: bool)
    : (r: Option<(Product, real)>)
    ensures r.None? <==> forall i :: 0 <= i < |ps| ==> CalculateTotalCost(ps[i], tons, isAccountHolder, includeDelivery).None?
    ensures r.Some? ==> r.value.0 in ps
    ensures r.Some? ==> CalculateTotalCost(r.value.0, tons, isAccountHolder, includeDelivery) == Some(r.value.1)
    ensures r.Some? ==> forall i :: 0 <= i < |ps| && CalculateTotalCost(ps[i], tons, isAccountHolder, includeDelivery).Some? ==>
      r.value.1 <= CalculateTotalCost(ps[i], tons, isAccountHolder, includeDelivery).value
  {
    if |ps| == 0 then None
    else
      var prefix := ps[..|ps| - 1];
      var last := ps[|ps| - 1];
      assert forall i :: 0 <= i < |prefix| ==> prefix[i] == ps[i];
      var best := FindCheapestProduct(prefix, tons, isAccountHolder, includeDelivery);
      assert last in ps;
      assert forall x :: x in prefix ==> x in ps;
      assert forall i :: 0 <= i < |prefix| ==>
        CalculateTotalCost(prefix[i], tons, isAccountHolder, includeDelivery) == CalculateTotalCost(ps[i], tons, isAccountHolder, includeDelivery);
      match CalculateTotalCost(last, tons, isAccountHolder, includeDelivery)
      case None => best
      case Some(c) =>
        if best.None? || c < best.value.1 then Some((last, c)) else best
  }

  // ---------------------------------------------------------------------------
  // Filtering
  // ---------------------------------------------------------------------------

  /** The location name matches ignoring case, the number exactly; an absent
      criterion matches everything. */
  predicate MatchesLocation(p: Product, locationName: Option<string>, locationNumber: Option<string>) {
    && (locationName.None? || EqualsIgnoreCase(p.locationName, locationName.value))
    && (locationNumber.None? || p.locationNumber == locationNumber)
  }

  /** `filter_products`: the matching products, in their original order. */
  function FilterProducts(ps: seq<Product>, locationName: Option<string>, locationNumber: Option<string>)
    : (r: seq<Product>)
    ensures |r| <= |ps|
  {
    if |ps| == 0 then []
    else
      var last := ps[|ps| - 1];
      FilterProducts(ps[..|ps| - 1], locationName, locationNumber) + (if MatchesLocation(last, locationName, locationNumber) then [last] else [])
  }

  /** Each matching product is kept as often as it occurs, and nothing else is kept. */
  lemma {:induction false} FilterCounts(ps: seq<Product>, locationName: Option<string>, locationNumber: Option<string>, p: Product)
    ensures multiset(FilterProducts(ps, locationName, locationNumber))[p]
         == if MatchesLocation(p, locationName, locationNumber) then multiset(ps)[p] else 0
  {
    if |ps| > 0 {
      var prefix := ps[..|ps| - 1];
      FilterCounts(prefix, locationName, locationNumber, p);
      assert ps == prefix + [ps[|ps| - 1]];
    }
  }

  /** With no criteria the whole list comes back unchanged. */
  lemma {:induction false} FilterWithoutCriteria(ps: seq<Product>)
    ensures FilterProducts(ps, None, None) == ps
  {
    if |ps| > 0 {
      FilterWithoutCriteria(ps[..|ps| - 1]);
      assert ps == ps[..|ps| - 1] + [ps[|ps| - 1]];
    }
  }

  /** Both criteria together select what filtering by the name and then by the
      number selects. */
  lemma {:induction false} FilterIsConjunctive(ps: seq<Product>, locationName: Option<string>, locationNumber: Option<string>)
    ensures FilterProducts(ps, locationName, locationNumber)
         == FilterProducts(FilterProducts(ps, locationName, None), None, locationNumber)
  {
    if |ps| > 0 {
      var prefix := ps[..|ps| - 1];
      var last := ps[|ps| - 1];
      FilterIsConjunctive(prefix, locationName, locationNumber);
      var byName := FilterProducts(prefix, locationName, None);
      var tail := if MatchesLocation(last, locationName, None) then [last] else [];
      assert FilterProducts(ps, locationName, None) == byName + tail;
      FilterAppend(byName, tail, None, locationNumber);
    }
  }

  /** Filtering a concatenation filters each part. */
  lemma {:induction false} FilterAppend(a: seq<Product>, b: seq<Product>, locationName: Option<string>, locationNumber: Option<string>)
    ensures FilterProducts(a + b, locationName, locationNumber)
         == FilterProducts(a, locationName, locationNumber) + FilterProducts(b, locationName, locationNumber)
    decreases |b|
  {
    if |b| > 0 {
      var b' := b[..|b| - 1];
      assert (a + b)[..|a + b| - 1] == a + b';
      FilterAppend(a, b', locationName, locationNumber);
    } else {
      assert a + b == a;
    }
  }
}
