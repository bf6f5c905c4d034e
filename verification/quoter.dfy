/** Aggregate haul quoting (`logistics_api/quoter.py`): a per-ton haul rate
    from a quarry's round-trip time, and the quote endpoint that prices every
    material reachable from a destination and keeps the cheapest one, or
    prices one material the caller names. Prices are exact reals here, not
    IEEE doubles. */
module Quoter {
  import opened Wrappers
  import opened Text

  const HourlyRate: real := 130.0
  const MinimumRate: real := 6.0
  /** `tons` when the request does not give it. */
  const DefaultTons: real := 25.0
  /** `material_id` value (and default) that asks for the cheapest material. */
  const Auto: string := "AUTO"

  // ---------------------------------------------------------------------------
  // Haul rate
  // ---------------------------------------------------------------------------

  /** `math.ceil`: the least integer not below `x`. */
  function Ceil(x: real): (c: int)
    ensures x <= c as real < x + 1.0
  {
    -((-x).Floor)
  }

  /** The hourly truck rate spread over the load: dollars per ton for one
      round trip of `minutes`. */
  function RawHaulRate(minutes: real, tons: real): real
    requires tons > 0.0
  {
    (HourlyRate / 60.0) * (minutes / tons)
  }

  /** `r` is a whole number of half-dollars. */
  predicate IsHalfDollar(r: real) {
    (2.0 * r).Floor as real == 2.0 * r
  }

  /** `calculate_haul_rate`: never below the minimum rate, the minimum rate for
      a non-positive time or load, and otherwise the raw rate rounded up to the
      next half-dollar when it exceeds the minimum. */
  function HaulRate(minutes: real, tons: real): (r: real)
    ensures MinimumRate <= r
    ensures minutes <= 0.0 || tons <= 0.0 ==> r == MinimumRate
    ensures minutes > 0.0 && tons > 0.0 && RawHaulRate(minutes, tons) <= MinimumRate ==>
      r == MinimumRate
    ensures minutes > 0.0 && tons > 0.0 && RawHaulRate(minutes, tons) > MinimumRate ==>
      IsHalfDollar(r) && RawHaulRate(minutes, tons) <= r < RawHaulRate(minutes, tons) + 0.5
  {
    if minutes <= 0.0 || tons <= 0.0 then MinimumRate
    else
      var raw := RawHaulRate(minutes, tons);
      if raw <= MinimumRate then MinimumRate
      else Ceil(raw * 2.0) as real / 2.0
  }

  /** Above the minimum, the haul rate is the smallest half-dollar amount that
      covers the raw rate. */
  lemma HaulRateIsLeastHalfDollar(minutes: real, tons: real, h: real)
    requires minutes > 0.0 && tons > 0.0 && RawHaulRate(minutes, tons) > MinimumRate
    requires IsHalfDollar(h) && RawHaulRate(minutes, tons) <= h
    ensures HaulRate(minutes, tons) <= h
  {
    var raw := RawHaulRate(minutes, tons);
    var k := (2.0 * h).Floor;
    assert raw * 2.0 <= k as real;
    var c := Ceil(raw * 2.0);
    assert c as real < k as real + 1.0;
    assert c <= k;
  }

  // ---------------------------------------------------------------------------
  // Materials, distances and quotes
  // ---------------------------------------------------------------------------

  /** A row of `PLANT_DATA`. */
  datatype Material = Material(id: int, name: string, quarryId: string, price: real, taxRate: real)

  /** `DISTANCE_MATRIX`: quarry id to destination id to round-trip minutes. */
  type DistanceMatrix = map<string, map<string, int>>

  /** `DISTANCE_MATRIX.get(quarry_id, {}).get(destination_id)`. */
  function RoundTrip(distances: DistanceMatrix, quarryId: string, destination: string): (r: Option<int>)
    ensures r.Some? <==> quarryId in distances && destination in distances[quarryId]
    ensures r.Some? ==> r.value == distances[quarryId][destination]
  {
    if quarryId in distances && destination in distances[quarryId]
    then Some(distances[quarryId][destination])
    else None
  }

  /** What one quote is priced against: the distances, the destination and the load. */
  datatype Job = Job(distances: DistanceMatrix, destination: string, tons: real)

  /** The returned quote, without its rounded display copies and text breakdown. */
  datatype Quote = Quote(plant: string, productId: int, rttMinutes: int,
                         haulRatePerTon: real, materialPrice: real, totalJobPrice: real)

  /** Pricing one material for a load at a known round-trip time. */
  function PriceMaterial(m: Material, rtt: int, tons: real): Quote {
    var haulRate := HaulRate(rtt as real, tons);
    var costPerTonPreTax := m.price + haulRate;
    Quote(m.name, m.id, rtt, haulRate, m.price, costPerTonPreTax * tons * (1.0 + m.taxRate))
  }

  /** The quote for one material, None when its quarry has no round-trip time
      to the destination. */
  function Offer(m: Material, job: Job): Option<Quote> {
    match RoundTrip(job.distances, m.quarryId, job.destination)
    case None => None
    case Some(rtt) => Some(PriceMaterial(m, rtt, job.tons))
  }

  function Cost(m: Material, job: Job): real
    requires Offer(m, job).Some?
  {
    Offer(m, job).value.totalJobPrice
  }

  // ---------------------------------------------------------------------------
  // Selection
  // ---------------------------------------------------------------------------

  /** `ps[k]` is priced, no priced material costs less, and every priced
      material before it costs strictly more: the first of the cheapest. */
  predicate IsEarliestCheapest(ps: seq<Material>, job: Job, k: int) {
    && 0 <= k < |ps|
    && Offer(ps[k], job).Some?
    && (forall j :: 0 <= j < |ps| && Offer(ps[j], job).Some? ==> Cost(ps[k], job) <= Cost(ps[j], job))
    && (forall j :: 0 <= j < k && Offer(ps[j], job).Some? ==> Cost(ps[k], job) < Cost(ps[j], job))
  }

  /** Only one position can be the first of the cheapest. */
  lemma EarliestCheapestUnique(ps: seq<Material>, job: Job, k: int, k': int)
    requires IsEarliestCheapest(ps, job, k) && IsEarliestCheapest(ps, job, k')
    ensures k == k'
  {
  }

  /** The AUTO scan: walking `ps` in order, a priced material replaces the one
      kept so far only when it is strictly cheaper. */
  function Cheapest(ps: seq<Material>, job: Job): (k: Option<nat>)
    ensures k.None? <==> forall j :: 0 <= j < |ps| ==> Offer(ps[j], job).None?
    ensures k.Some? ==> IsEarliestCheapest(ps, job, k.value)
  {
    if |ps| == 0 then None
    else
      var prefix := ps[..|ps| - 1];
      var prev := Cheapest(prefix, job);
      var last := |ps| - 1;
      if Offer(ps[last], job).None? then
        assert forall j :: 0 <= j < last ==> prefix[j] == ps[j];
        prev
      else if prev.None? || Cost(ps[last], job) < Cost(ps[prev.value], job) then
        assert forall j :: 0 <= j < last ==> prefix[j] == ps[j];
        Some(last)
      else
        assert forall j :: 0 <= j < last ==> prefix[j] == ps[j];
        prev
  }

  /** The override scan: the first priced material, where the loop breaks. */
  function FirstPriced(ps: seq<Material>, job: Job): (k: Option<nat>)
    ensures k.None? <==> forall j :: 0 <= j < |ps| ==> Offer(ps[j], job).None?
    ensures k.Some? ==> k.value < |ps| && Offer(ps[k.value], job).Some?
    ensures k.Some? ==> forall j :: 0 <= j < k.value ==> Offer(ps[j], job).None?
  {
    if |ps| == 0 then None
    else
      var prefix := ps[..|ps| - 1];
      var prev := FirstPriced(prefix, job);
      assert forall j :: 0 <= j < |prefix| ==> prefix[j] == ps[j];
      if prev.Some? then prev
      else if Offer(ps[|ps| - 1], job).Some? then Some(|ps| - 1)
      else None
  }

  /** `[p for p in PLANT_DATA if p['id'] == target_id]`, order kept. */
  function WithId(ps: seq<Material>, id: int): (r: seq<Material>)
    ensures |r| <= |ps|
    ensures forall m :: m in r <==> m in ps && m.id == id
    ensures forall m :: multiset(r)[m] == if m.id == id then multiset(ps)[m] else 0
  {
    if |ps| == 0 then []
    else
      var prefix := ps[..|ps| - 1];
      assert ps == prefix + [ps[|ps| - 1]];
      WithId(prefix, id) + (if ps[|ps| - 1].id == id then [ps[|ps| - 1]] else [])
  }

  /** `ps[k]` is the first plant with the id that is priced for the job. */
  predicate IsFirstPricedWithId(ps: seq<Material>, job: Job, id: int, k: int) {
    && 0 <= k < |ps|
    && ps[k].id == id
    && Offer(ps[k], job).Some?
    && forall j :: 0 <= j < k && ps[j].id == id ==> Offer(ps[j], job).None?
  }

  /** Filtering by id one plant further along. */
  lemma WithIdSnoc(ps: seq<Material>, m: Material, id: int)
    ensures WithId(ps + [m], id) == WithId(ps, id) + (if m.id == id then [m] else [])
  {
    assert (ps + [m])[..|ps|] == ps;
  }

  /** The override scan one material further along. */
  lemma FirstPricedSnoc(w: seq<Material>, m: Material, job: Job)
    ensures FirstPriced(w + [m], job)
         == if FirstPriced(w, job).Some? then FirstPriced(w, job)
            else if Offer(m, job).Some? then Some(|w|) else None
  {
    assert (w + [m])[..|w|] == w;
  }

  /** The override scan over the plants with an id stops at the first plant
      with that id, in list order, that is priced. */
  ghost predicate ScanStopsAtFirstWithId(ps: seq<Material>, job: Job, id: int) {
    var w := WithId(ps, id);
    var f := FirstPriced(w, job);
    f.Some? ==> exists k :: IsFirstPricedWithId(ps, job, id, k) && ps[k] == w[f.value]
  }

  lemma {:induction false} FirstPricedWithId(ps: seq<Material>, job: Job, id: int)
    ensures ScanStopsAtFirstWithId(ps, job, id)
    decreases |ps|
  {
    if |ps| > 0 {
      var prefix := ps[..|ps| - 1];
      assert ps == prefix + [ps[|ps| - 1]];
      FirstPricedWithId(prefix, job, id);
      FirstPricedWithIdStep(prefix, ps[|ps| - 1], job, id);
    }
  }

  /** One plant further along, the scan still stops at the first priced plant
      with the id. */
  lemma FirstPricedWithIdStep(prefix: seq<Material>, last: Material, job: Job, id: int)
    requires ScanStopsAtFirstWithId(prefix, job, id)
    ensures ScanStopsAtFirstWithId(prefix + [last], job, id)
  {
    var ps := prefix + [last];
    var w0 := WithId(prefix, id);
    var f0 := FirstPriced(w0, job);
    var w := WithId(ps, id);
    WithIdSnoc(prefix, last, id);
    if last.id != id {
      assert w == w0;
      if f0.Some? {
        var k :| IsFirstPricedWithId(prefix, job, id, k) && prefix[k] == w0[f0.value];
        FirstPricedWithIdKeep(prefix, last, job, id, k);
        assert ps[k] == w[f0.value];
      }
    } else {
      assert w == w0 + [last];
      FirstPricedSnoc(w0, last, job);
      var f := FirstPriced(w, job);
      if f0.Some? {
        var k :| IsFirstPricedWithId(prefix, job, id, k) && prefix[k] == w0[f0.value];
        FirstPricedWithIdKeep(prefix, last, job, id, k);
        assert f == f0;
        assert ps[k] == w[f.value];
      } else if Offer(last, job).Some? {
        forall j | 0 <= j < |prefix| && ps[j].id == id
          ensures Offer(ps[j], job).None?
        {
          assert ps[j] == prefix[j] && prefix[j] in prefix;
          assert ps[j] in w0;
          var i :| 0 <= i < |w0| && w0[i] == ps[j];
        }
        assert IsFirstPricedWithId(ps, job, id, |prefix|);
        assert f == Some(|w0|) && w[|w0|] == last;
        assert ps[|prefix|] == w[f.value];
      }
    }
  }

  /** The first priced plant with the id stays first when a plant is added
      after it. */
  lemma FirstPricedWithIdKeep(prefix: seq<Material>, last: Material, job: Job, id: int, k: int)
    requires IsFirstPricedWithId(prefix, job, id, k)
    ensures IsFirstPricedWithId(prefix + [last], job, id, k)
  {
    var ps := prefix + [last];
    assert forall j :: 0 <= j < |prefix| ==> ps[j] == prefix[j];
  }

  // ---------------------------------------------------------------------------
  // The quote endpoint
  // ---------------------------------------------------------------------------

  datatype QuoteError = MissingParameters | InvalidMaterialId | NoQuoteFound

  /** The HTTP status each error is answered with. */
  function StatusCode(e: QuoteError): int {
    match e
    case MissingParameters => 400
    case InvalidMaterialId => 400
    case NoQuoteFound => 404
  }

  /** The missing-parameter check: no or empty destination, or a load that is not positive. */
  predicate MissingParams(destination: Option<string>, tons: Option<real>) {
    destination.GetOr("") == "" || tons.GetOr(DefaultTons) <= 0.0
  }

  /** A `material_id` other than AUTO that `int()` rejects. */
  predicate BadMaterialId(materialId: Option<string>) {
    materialId.GetOr(Auto) != Auto && ParseInt(materialId.GetOr(Auto)).None?
  }

  /** The quote a scan over `ps` keeps: the first of the cheapest in AUTO mode,
      the first priced one otherwise. */
  function Pick(ps: seq<Material>, job: Job, auto: bool): Option<Quote> {
    var k := if auto then Cheapest(ps, job) else FirstPriced(ps, job);
    if k.Some? then Offer(ps[k.value], job) else None
  }

  /** One more material in the AUTO scan: it is kept when priced and strictly
      cheaper than the quote kept so far (or when none is kept yet). */
  lemma CheapestStep(ps: seq<Material>, job: Job, i: nat)
    requires i < |ps|
    ensures var before := Pick(ps[..i], job, true);
      var o := Offer(ps[i], job);
      Pick(ps[..i + 1], job, true) ==
        if o.None? then before
        else if before.None? || o.value.totalJobPrice < before.value.totalJobPrice then o
        else before
  {
    var prefix := ps[..i + 1];
    assert prefix[..i] == ps[..i];
    assert prefix[i] == ps[i];
    var prev := Cheapest(ps[..i], job);
    if prev.Some? {
      assert prefix[prev.value] == ps[..i][prev.value];
    }
  }

  /** One more material in the override scan, while nothing is kept yet. */
  lemma FirstPricedStep(ps: seq<Material>, job: Job, i: nat)
    requires i < |ps| && FirstPriced(ps[..i], job).None?
    ensures Offer(ps[i], job).None? ==> FirstPriced(ps[..i + 1], job).None?
    ensures Offer(ps[i], job).Some? ==> Pick(ps, job, false) == Offer(ps[i], job)
  {
    var prefix := ps[..i + 1];
    assert prefix[..i] == ps[..i];
    assert prefix[i] == ps[i];
    if Offer(ps[i], job).Some? {
      assert forall j :: 0 <= j < i ==> ps[j] == ps[..i][j];
      var k := FirstPriced(ps, job).value;
      assert k == i;
    }
  }

  /** The handler's loop as written: an optimal cost that starts out infinite
      (here: no quote kept yet), a strict `<`, and a `break` after the first
      priced material when a material id was given. */
  method ScanProducts(ps: seq<Material>, job: Job, auto: bool) returns (optimalQuote: Option<Quote>)
    ensures optimalQuote == Pick(ps, job, auto)
  {
    var optimalCost: real := 0.0;
    optimalQuote := None;
    var i := 0;
    while i < |ps|
      invariant 0 <= i <= |ps|
      invariant auto ==> optimalQuote == Pick(ps[..i], job, true)
      invariant optimalQuote.Some? ==> optimalCost == optimalQuote.value.totalJobPrice
      invariant !auto ==> optimalQuote.None? && FirstPriced(ps[..i], job).None?
    {
      var material := ps[i];
      if auto {
        CheapestStep(ps, job, i);
      } else {
        FirstPricedStep(ps, job, i);
      }
      match RoundTrip(job.distances, material.quarryId, job.destination) {
        case None =>
        case Some(rtt) =>
          var quote := PriceMaterial(material, rtt, job.tons);
          if optimalQuote.None? || quote.totalJobPrice < optimalCost || !auto {
            optimalCost := quote.totalJobPrice;
            optimalQuote := Some(quote);
            if !auto {
              return;
            }
          }
      }
      i := i + 1;
    }
    assert ps[..i] == ps;
  }

  /** The answer the handler sends for what the scan kept. */
  function Answer(kept: Option<Quote>): Result<Quote, QuoteError> {
    match kept
    case None => Err(NoQuoteFound)
    case Some(q) => Ok(q)
  }

  /** `get_quote` with the request's query arguments already read: validation,
      then the AUTO scan over all plants or the override scan over the plants
      with the requested id. */
  function GetQuote(plants: seq<Material>, distances: DistanceMatrix, destination: Option<string>,
                    tons: Option<real>, materialId: Option<string>): (r: Result<Quote, QuoteError>)
    ensures r == Err(MissingParameters) <==> MissingParams(destination, tons)
    ensures r == Err(InvalidMaterialId) <==> !MissingParams(destination, tons) && BadMaterialId(materialId)
  {
    var t := tons.GetOr(DefaultTons);
    var selector := materialId.GetOr(Auto);
    if destination.GetOr("") == "" || t <= 0.0 then Err(MissingParameters)
    else
      var job := Job(distances, destination.value, t);
      if selector == Auto then Answer(Pick(plants, job, true))
      else
        match ParseInt(selector)
        case None => Err(InvalidMaterialId)
        case Some(target) => Answer(Pick(WithId(plants, target), job, false))
  }

  /** In AUTO mode the answer is a quote exactly when some plant is priced for
      the destination, and it is the first of the cheapest priced plants;
      otherwise it is 404. */
  lemma AutoQuoteIsEarliestCheapest(plants: seq<Material>, distances: DistanceMatrix,
                                    destination: string, tons: real, materialId: Option<string>)
    requires destination != "" && tons > 0.0 && materialId.GetOr(Auto) == Auto
    ensures var r := GetQuote(plants, distances, Some(destination), Some(tons), materialId);
      var job := Job(distances, destination, tons);
      && (r.Ok? <==> exists k :: 0 <= k < |plants| && Offer(plants[k], job).Some?)
      && (r.Err? ==> StatusCode(r.error) == 404)
      && (r.Ok? ==> exists k :: IsEarliestCheapest(plants, job, k) && Offer(plants[k], job) == Some(r.value))
  {
    var job := Job(distances, destination, tons);
    var c := Cheapest(plants, job);
    if c.Some? {
      assert IsEarliestCheapest(plants, job, c.value);
    }
  }

  /** A numeral led by a separator `\x1c` to `\x1f` is not an id to `int()`,
      so the request is refused as an invalid id rather than quoted. */
  lemma SeparatorPaddedIdRefused(plants: seq<Material>, distances: DistanceMatrix,
                                 destination: string, tons: real, digits: string, c: char)
    requires destination != "" && tons > 0.0
    requires |digits| > 0 && IsDigits(digits) && '\U{1C}' <= c <= '\U{1F}'
    ensures GetQuote(plants, distances, Some(destination), Some(tons), Some([c] + digits)) == Err(InvalidMaterialId)
  {
    LeadingSeparatorRejected(digits, c);
    PaddedIdIsBad([c] + digits);
  }

  /** Text that `int()` rejects and that does not start with `A` is a bad id. */
  lemma PaddedIdIsBad(id: string)
    requires |id| > 0 && id[0] != 'A' && ParseInt(id) == None
    ensures BadMaterialId(Some(id))
  {
    assert id != Auto by { assert Auto[0] == 'A'; }
  }

  /** With an explicit id, the answer is a quote for a plant with that id
      exactly when such a plant is priced for the destination; otherwise it is
      404, an unknown id included. */
  lemma OverrideQuoteIsForThatMaterial(plants: seq<Material>, distances: DistanceMatrix,
                                       destination: string, tons: real, materialId: string, id: int)
    requires destination != "" && tons > 0.0
    requires materialId != Auto && ParseInt(materialId) == Some(id)
    ensures var r := GetQuote(plants, distances, Some(destination), Some(tons), Some(materialId));
      var job := Job(distances, destination, tons);
      && (r.Ok? <==> exists m :: m in plants && m.id == id && Offer(m, job).Some?)
      && (r.Err? ==> StatusCode(r.error) == 404)
      && (r.Ok? ==> r.value.productId == id)
      && (r.Ok? ==> exists m :: m in plants && m.id == id && Offer(m, job) == Some(r.value))
  {
    var job := Job(distances, destination, tons);
    var candidates := WithId(plants, id);
    var f := FirstPriced(candidates, job);
    if f.Some? {
      var m := candidates[f.value];
      assert m in candidates;
      assert m in plants && m.id == id;
    } else {
      forall m | m in plants && m.id == id
        ensures Offer(m, job).None?
      {
        assert m in candidates;
        var j :| 0 <= j < |candidates| && candidates[j] == m;
      }
    }
  }

  /** With an explicit id, the quote is that of the first plant with the id,
      in list order, that is priced for the destination: the `break` stops
      the scan there. */
  lemma OverrideQuoteIsFirstWithThatId(plants: seq<Material>, distances: DistanceMatrix,
                                       destination: string, tons: real, materialId: string, id: int)
    requires destination != "" && tons > 0.0
    requires materialId != Auto && ParseInt(materialId) == Some(id)
    ensures var r := GetQuote(plants, distances, Some(destination), Some(tons), Some(materialId));
      var job := Job(distances, destination, tons);
      r.Ok? ==> exists k :: IsFirstPricedWithId(plants, job, id, k) && Offer(plants[k], job) == Some(r.value)
  {
    var job := Job(distances, destination, tons);
    FirstPricedWithId(plants, job, id);
    assert ScanStopsAtFirstWithId(plants, job, id);
  }

  /** The whole handler as written: validation, the choice of products to
      check, the scan, and the 404 when nothing was kept. */
  method QuoteHandler(plants: seq<Material>, distances: DistanceMatrix, destination: Option<string>,
                      tons: Option<real>, materialId: Option<string>) returns (r: Result<Quote, QuoteError>)
    ensures r == GetQuote(plants, distances, destination, tons, materialId)
  {
    var t := tons.GetOr(DefaultTons);
    var selector := materialId.GetOr(Auto);
    if destination.GetOr("") == "" || t <= 0.0 {
      return Err(MissingParameters);
    }
    var productsToCheck := plants;
    if selector != Auto {
      match ParseInt(selector) {
        case None =>
          return Err(InvalidMaterialId);
        case Some(target) =>
          productsToCheck := WithId(plants, target);
      }
    }
    var optimalQuote := ScanProducts(productsToCheck, Job(distances, destination.value, t), selector == Auto);
    r := Answer(optimalQuote);
  }

  // ---------------------------------------------------------------------------
  // The shipped price list and distance table
  // ---------------------------------------------------------------------------

  const PlantData: seq<Material> := [
    Material(1, "1 1/2\" Crusher Run (594-Cherokee)", "Q_594", 14.00, 0.09),
    Material(4, "#57 Stone (594-Cherokee)", "Q_594", 17.00, 0.09),
    Material(9, "Surge Stone (594-Cherokee)", "Q_594", 15.00, 0.09),
    Material(10, "1 1/2\" Crusher Run (71501-Laceys)", "Q_71501", 12.00, 0.09),
    Material(12, "#57 Washed (71501-Laceys)", "Q_71501", 20.00, 0.09),
    Material(16, "1 1/2\" Crusher Run (591-Mt Hope)", "Q_591", 10.00, 0.09),
    Material(17, "Dense Grade Base (591-Mt Hope)", "Q_591", 11.50, 0.09),
    Material(14, "Concrete Sand (71087-Monteagle)", "Q_71087", 28.00, 0.09)
  ]

  const DistanceData: DistanceMatrix := map[
    "Q_594" := map["D_HSV_AVIA" := 100, "D_DECA_SITEA" := 65, "D_FLOR_B" := 45],
    "Q_71501" := map["D_HSV_AVIA" := 40, "D_DECA_SITEA" := 50, "D_FLOR_B" := 120],
    "Q_591" := map["D_HSV_AVIA" := 110, "D_DECA_SITEA" := 85, "D_FLOR_B" := 60],
    "Q_71087" := map["D_HSV_AVIA" := 90, "D_DECA_SITEA" := 100, "D_FLOR_B" := 150]
  ]

  /** A 40-minute round trip spread over 25 tons is below the minimum, so it
      costs the minimum $6.00 per ton; 100 minutes is $8.67, rounded up to $9.00. */
  lemma ShippedHaulRates()
    ensures HaulRate(40.0, 25.0) == 6.0
    ensures HaulRate(100.0, 25.0) == 9.0
  {
    assert RawHaulRate(100.0, 25.0) == 26.0 / 3.0;
    assert Ceil(52.0 / 3.0) == 18;
  }
}
