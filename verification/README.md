# Angel Cloud auth bridge and aggregate quoting, modelled in Dafny

This project models three parts of the Angel Cloud repository as pure Dafny
functions and proves what they promise.

- **Haul quoting** (`logistics_api/quoter.py`): module `Quoter`.
  - `calculate_haul_rate` turns a quarry's round-trip minutes and the load in
    tons into a per-ton haul rate. It never goes below $6.00 and otherwise
    rounds up to the next half-dollar.
  - `get_quote` validates the query, prices every material whose quarry has a
    round-trip time to the destination, and returns one quote:
    - in `AUTO` mode, the first of the cheapest;
    - with an explicit `material_id`, the first priced material with that id.
  - Prices are exact reals, not IEEE doubles.
- **The aggregate price-sheet parser** (`DataParser`): module `PriceSheet`,
  with `PriceSheetExamples` for the test sheet.
  - `data_parser.py` is not part of this model. The parser is reconstructed
    from what `test_data_parser.py` asserts:
    - the location column split on `/`;
    - price cells cleaned of `$` and `per load`, with `CALL`, `N/A` and blanks
      meaning "no price" and an optional surcharge on the two per-ton prices;
    - records without a product or prices skipped;
    - the total-cost, cheapest-product and filter queries.
  - `PriceSheetExamples` parses the test's sheet into its five products,
    record by record and then as a whole, and restates the test file's
    assertions about costs, the cheapest product and filtering against those
    products.
- **Accounts and wallet identity**: module `AuthBridge` for
  `angel-auth-bridge.js` and module `PulsarSecurity` for
  `pulsar_security_core.js`.
  - `AuthBridge` covers:
    - the startup check of the encryption secret;
    - password hashing;
    - SSO tokens and the `verifySSO` middleware;
    - registration into the user table;
    - the wallet-linking endpoint with its 400/404/500 paths;
    - the vault key derivation.
  - `PulsarSecurity` holds the verified address and the session key, and
    guards encryption and decryption on that key.
  - bcrypt, JWT, PBKDF2, SHA-256, AES-256-CBC and `ethers.utils.verifyMessage`
    are not modelled. They are either symbolic datatypes that record their
    inputs, or function parameters (oracles).
  - The clock, random bytes and salts are parameters.

Helper modules:

- `Wrappers`: `Option` and `Result`.
- `Text`:
  - trimming as `str.strip()` does it on ASCII text, and the narrower trim of `int()`;
  - splitting and joining on one character;
  - JavaScript's first-occurrence `replace`;
  - ASCII case folding;
  - decimal numerals and Python's `int()`.
- `Hex`: Node's hexadecimal `Buffer` encoding and decoding.

One assertion of the test file contradicts the others, and the model follows
the others.

- `test_data_parser.py:120` expects 10 tons of `Fill Dirt` to cost `500.00`.
- Line 66 of the same file asserts that its surcharged price is `50.10` a ton,
  so the total is `501.00`.
- `PriceSheetExamples.TotalCostExamples` proves `501.0`.

## Model

| member | source | states |
|---|---|---|
| `Quoter.HaulRate` | logistics_api/quoter.py:88-101 | The rate is never below 6.0. It is exactly 6.0 when minutes or tons are not positive, or when (130/60)·(minutes/tons) is at most 6. Otherwise it is a whole number of half-dollars, at least the raw rate and less than 0.5 above it. |
| `Quoter.HaulRateIsLeastHalfDollar` | logistics_api/quoter.py:96-101 | Above the minimum, no half-dollar amount that covers the raw rate is smaller than the returned rate: it is the least one. |
| `Quoter.ShippedHaulRates` | logistics_api/quoter.py:88-101 | With the shipped table's 40- and 100-minute round trips and the default 25 tons, the rates are $6.00 (floor) and $9.00 ($8.67 rounded up). |
| `Quoter.EarliestCheapestUnique` | logistics_api/quoter.py:147 | Under the strict `<`, at most one position is the first among the cheapest priced materials. |
| `Quoter.Cheapest` | logistics_api/quoter.py:118-157 | The AUTO scan finds nothing exactly when no material is priced. Otherwise it finds a priced material that no priced material undercuts and that every earlier priced one strictly exceeds. |
| `Quoter.FirstPriced` | logistics_api/quoter.py:147-159 | The override scan stops at the first priced material. It finds nothing exactly when none is priced. |
| `Quoter.WithId` | logistics_api/quoter.py:127 | The products to check are the plants with the requested id, each as often as it occurs in the plant table, in table order. |
| `Quoter.CheapestStep` | logistics_api/quoter.py:147-157 | One more material in the AUTO loop replaces the kept quote exactly when it is priced and strictly cheaper, or when nothing is kept yet. |
| `Quoter.FirstPricedWithId` | logistics_api/quoter.py:124-159 | The override scan over the plants with an id stops, if anywhere, at the first plant in table order that has that id and is priced for the destination. |
| `Quoter.FirstPricedStep` | logistics_api/quoter.py:147-159 | In override mode, unpriced materials are skipped and the first priced one is the answer (the `break`). |
| `Quoter.ScanProducts` | logistics_api/quoter.py:118-159 | The loop as written, with the infinite starting cost, the strict `<`, `continue` on a missing time and `break` in override mode, keeps the quote the AUTO or override selection describes. |
| `Quoter.GetQuote` | logistics_api/quoter.py:108-164 | The result is the missing-parameters 400 exactly when the destination is absent or empty or tons ≤ 0 (default 25). It is the invalid-id 400 exactly when the parameters are present and a non-`AUTO` `material_id` is not an integer as `int()` reads one. That means an optional sign and ASCII digits, with only space and `\t` to `\r` allowed around them, so `"\x1c5"` is refused. |
| `Quoter.AutoQuoteIsEarliestCheapest` | logistics_api/quoter.py:118-164 | In AUTO mode there is a quote exactly when some plant is priced for the destination, and it is the first of the cheapest. Otherwise the answer is 404. |
| `Quoter.OverrideQuoteIsForThatMaterial` | logistics_api/quoter.py:124-164 | With an integer id there is a quote exactly when a plant with that id is priced for the destination, and the quote is for such a plant. Otherwise the answer is 404, unknown ids included. |
| `Quoter.OverrideQuoteIsFirstWithThatId` | logistics_api/quoter.py:124-164 | With an integer id, a quote is the one for the first plant in table order that has that id and is priced for the destination. |
| `Quoter.SeparatorPaddedIdRefused` | logistics_api/quoter.py:124-129 | With valid parameters, a `material_id` made of a separator `\x1c` to `\x1f` followed by digits is refused as an invalid id (400), not quoted. |
| `Quoter.QuoteHandler` | logistics_api/quoter.py:108-164 | The handler with its early returns and loop gives the answer `GetQuote` specifies. |
| `Text.ParseIntRoundTrip` | logistics_api/quoter.py:126 | `int()` reads a natural number's numeral back as that number. |
| `Text.ParseIntNegativeRoundTrip` | logistics_api/quoter.py:126 | `int()` reads `-` followed by a numeral as the negated number. |
| `Text.ParseIntRejectsNonNumerals` | logistics_api/quoter.py:125-129 | Text that, once the whitespace `int()` skips is removed, starts with neither a digit nor a sign raises `ValueError` (None). |
| `Text.ParseIntRejectsSeparatorPadding` | logistics_api/quoter.py:125-129 | A numeral with one of the separators `\x1c` to `\x1f` before or after it raises `ValueError` (None), although `str.strip()` would reduce it to the bare numeral. |
| `Text.ReplaceFirst` | angel-auth-bridge.js:79 | When the pattern occurs, its first occurrence is replaced and the text before and after it is kept. When it does not occur, the string comes back unchanged. |
| `Text.ReplaceFirstPrefix` | angel-auth-bridge.js:79 | A leading `Bearer ` is removed, whatever the token after it holds. |
| `Text.EqualsIgnoreCaseLower` | pulsar_security_core.js:28 | Comparing the lower-cased strings is the same as comparing letter by letter ignoring ASCII case. |
| `Text.SplitJoin` | test_data_parser.py:43-55 | Splitting on `/` a join of `/`-free parts gives the parts back. |
| `Text.JoinSplit` | test_data_parser.py:43-55 | Joining the pieces of a split gives back the column. |
| `Hex.HexRoundTrip` | pulsar_security_core.js:62-83 | Bytes written as hex and read back with `Buffer.from(…, 'hex')` are the same bytes. |
| `Hex.HexDecodeLength` | angel-auth-bridge.js:36-41 | An even-length string of hex digits decodes to half as many bytes. |
| `Hex.HexDecodeStopsAtFirstBadPair` | angel-auth-bridge.js:40-41 | A string whose first character is not a hex digit decodes to no bytes, without an error. |
| `PriceSheet.ParseFormatCents` | test_data_parser.py:57-73 | A two-decimal amount `d.cc` reads back as that amount. |
| `PriceSheet.ScanRejects` | test_data_parser.py:180-185 | A character other than a digit or a point anywhere in the text means it is no numeral. |
| `PriceSheet.SurchargeAddsExactly` | test_data_parser.py:187-195 | A cell has a price with the surcharge exactly when it has one without, and the two differ by exactly the surcharge. |
| `PriceSheet.NoPriceMarkers` | test_data_parser.py:68-70 | `CALL` and `N/A` have no price, with or without a surcharge. |
| `PriceSheet.MarkerHasNoPrice` | test_data_parser.py:90-93 | A blank, `CALL` or `N/A` cell without surrounding whitespace has no price. |
| `PriceSheet.NonNumeralHasNoPrice` | test_data_parser.py:180-185 | Unpadded text that does not start like a numeral, a `$` or a `per load` price has no price. |
| `PriceSheet.PriceTextOfLoadPrice` | test_data_parser.py:65-66 | The numeral inside `$d.cc per load` is `d.cc`. |
| `PriceSheet.DollarAmountsClean` | test_data_parser.py:61-73 | `d.cc`, `$d.cc` and `$d.cc per load` all clean to the amount plus the surcharge. |
| `PriceSheet.ParseLocationThreeParts` | test_data_parser.py:47-50 | `Name/Type/Number` splits into its three parts. |
| `PriceSheet.ParseLocationTwoParts` | test_data_parser.py:52-55 | `Name/Type` splits into its two parts, with no number. |
| `PriceSheet.GatherSources` | test_data_parser.py:38-41 | Each product comes from a kept record, and each kept record gives a product. |
| `PriceSheet.ParseCsv` | test_data_parser.py:30-36 | A missing file gives no products. A file never gives more products than it has records after the header. |
| `PriceSheet.ParseCsvSources` | test_data_parser.py:38-41 | A product is in the result exactly when some record after the header is a data record that parses to it. |
| `PriceSheet.GatherKeptThenDropped` | test_data_parser.py:38-41 | Kept records followed by dropped ones give exactly one product per kept record, in order. |
| `PriceSheet.ParseCsvKeepsDataRecords` | test_data_parser.py:14-41 | For a header, then data records, then records without product or prices, the result is exactly the data records parsed, in file order. |
| `PriceSheet.DeliveryAddsItsCost` | test_data_parser.py:97-124 | Asking for delivery never changes whether there is a cost. With a known delivery cost it adds tons × that cost, and with none the cost is the same. |
| `PriceSheet.AccountFlagChoosesPrice` | test_data_parser.py:110-116 | The account-holder cost is the non-account cost of the same product priced at its account price: the flag only chooses the price. |
| `PriceSheet.CostScalesWithLoad` | test_data_parser.py:104-124 | The cost is unknown exactly when the applicable price is, and otherwise it is tons times the cost of one ton. |
| `PriceSheet.FindCheapestProduct` | test_data_parser.py:126-152 | There is no answer exactly when no product has a cost. Otherwise the answer is a listed product with its cost, and no costable product is cheaper. |
| `PriceSheet.FilterCounts` | test_data_parser.py:154-178 | Filtering keeps every product matching the name (ignoring case) and the number, as often as it occurs, and nothing else. |
| `PriceSheet.FilterWithoutCriteria` | test_data_parser.py:176-178 | With no criteria the list comes back unchanged. |
| `PriceSheet.FilterIsConjunctive` | test_data_parser.py:168-174 | Filtering by name and number is filtering by name, then by number. |
| `PriceSheetExamples.Record1Prices` | test_data_parser.py:61-63 | `$20.00` and `$19.00` clean to 20.10 and 19.10 with the surcharge. The delivery `$2.50` cleans to 2.50 without it. |
| `PriceSheetExamples.Record2Prices` | test_data_parser.py:65-66 | `$50.00 per load` cleans to 50.10. The delivery `CALL` has no price. |
| `PriceSheetExamples.Record3Prices` | test_data_parser.py:68-70 | `CALL` has no price even with the surcharge. The delivery `3.00` cleans to 3.00. |
| `PriceSheetExamples.Record4Prices` | test_data_parser.py:72-73 | The bare `24.00` cleans to 24.10 and `$23.00` to 23.10. The delivery `N/A` has no price. |
| `PriceSheetExamples.Record5Prices` | test_data_parser.py:94-95 | `$10.00` and `$9.00` clean to 10.10 and 9.10. The delivery `$15.00` cleans to 15.00. |
| `PriceSheetExamples.CleanWithoutSurcharge` | test_data_parser.py:187-195 | Without a surcharge, `$20.00` and `$19.00` clean to 20.00 and 19.00. |
| `PriceSheetExamples.InvalidPrice` | test_data_parser.py:180-185 | `Invalid Price` has no price. |
| `PriceSheetExamples.FullLocation` | test_data_parser.py:47-50 | `Cherokee/Rock Quarry/594` is Cherokee, Rock Quarry, 594. |
| `PriceSheetExamples.IncompleteLocation` | test_data_parser.py:52-55 | `Incomplete/Location` is Incomplete, Location, with no number. |
| `PriceSheetExamples.LaceysSpringLocation` | test_data_parser.py:18 | `Lacey's Spring/Rock Quarry/71501` is Lacey's Spring, Rock Quarry, 71501. |
| `PriceSheetExamples.MonteagleLocation` | test_data_parser.py:20 | `Monteagle/Sand Quarry/71087` is Monteagle, Sand Quarry, 71087. |
| `PriceSheetExamples.Record1Kept` | test_data_parser.py:17 | The `#89 Stone` record is a data record. |
| `PriceSheetExamples.Record1Product` | test_data_parser.py:17 | The `#89 Stone` record parses to Cherokee, Rock Quarry, 594, its address and name as written, 20.10, 19.10 and 2.50. |
| `PriceSheetExamples.Record2Kept` | test_data_parser.py:18 | The `Fill Dirt` record is a data record. |
| `PriceSheetExamples.Record2Product` | test_data_parser.py:18 | The `Fill Dirt` record parses to Lacey's Spring, Rock Quarry, 71501, 50.10 for both prices and no delivery cost. |
| `PriceSheetExamples.Record3Kept` | test_data_parser.py:19 | The `8910s` record is a data record: `CALL` is not blank. |
| `PriceSheetExamples.Record3Product` | test_data_parser.py:19 | The `8910s` record parses to Cherokee with no per-ton prices and a 3.00 delivery cost. |
| `PriceSheetExamples.Record4Kept` | test_data_parser.py:20 | The `1 1/2"` record is a data record. |
| `PriceSheetExamples.Record4Product` | test_data_parser.py:20 | The `1 1/2"` record parses to Monteagle, Sand Quarry, 71087, 24.10, 23.10 and no delivery cost. |
| `PriceSheetExamples.Record5Kept` | test_data_parser.py:21 | The `Cheap Stone` record is a data record. |
| `PriceSheetExamples.Record5Product` | test_data_parser.py:21 | The `Cheap Stone` record parses to Incomplete, Location, no number, 10.10, 9.10 and 15.00. |
| `PriceSheetExamples.Record7Skipped` | test_data_parser.py:23 | The record with a location and address but blank product and prices is not a data record. |
| `PriceSheetExamples.FiveKeptTwoDropped` | test_data_parser.py:38-41 | Five kept records, an empty record and a dropped record gather to the five records' products, in order. |
| `PriceSheetExamples.SheetParses` | test_data_parser.py:14-95 | The test sheet parses to exactly the five products of its five product records, in file order: `len(results)` is 5, and the results are the products whose fields lines 48-95 read. |
| `PriceSheetExamples.EmptyRecordSkipped` | test_data_parser.py:22 | The empty record is not a data record. |
| `PriceSheetExamples.BlankRecordSkipped` | test_data_parser.py:23 | A record with blank product and prices is not a data record. |
| `PriceSheetExamples.TotalCostExamples` | test_data_parser.py:104-124 | At 10 tons the costs are 201, 191 and 216 for `#89 Stone` and 501 for `Fill Dirt` with ignored delivery. `8910s` has no cost. |
| `PriceSheetExamples.CheapestWithoutDelivery` | test_data_parser.py:131-137 | Without delivery, `Cheap Stone` at 101.00 is the cheapest. |
| `PriceSheetExamples.CheapestWithDelivery` | test_data_parser.py:139-146 | For an account holder with delivery, `#89 Stone` at 216.00 is the cheapest. |
| `PriceSheetExamples.NoCheapestWithoutPrices` | test_data_parser.py:148-152 | A list holding only `8910s` has no cheapest product. |
| `PriceSheetExamples.FilterByName` | test_data_parser.py:158-161 | `cherokee` keeps the two Cherokee products. |
| `PriceSheetExamples.FilterByNumber` | test_data_parser.py:163-166 | `71501` keeps only `Fill Dirt` at Lacey's Spring. |
| `PriceSheetExamples.FilterByNameAndNumber` | test_data_parser.py:168-174 | `Cherokee` with 594 keeps two products. `Cherokee` with 71501 keeps none. |
| `PriceSheetExamples.FilterWithoutCriteriaExample` | test_data_parser.py:176-178 | No criteria keep all five products. |
| `PulsarSecurity.VerifyWalletSignature` | pulsar_security_core.js:20-38 | A missing input throws before recovery. Success happens exactly when the recovered address equals the expected one ignoring case, and returns and stores the expected address as supplied. Every failure leaves the state unchanged. |
| `PulsarSecurity.VerifyKeepsSuppliedCasing` | pulsar_security_core.js:28-33 | A signature recovering to the lower-case form still verifies a mixed-case address, and the mixed-case form is stored. |
| `PulsarSecurity.GenerateSessionKey` | pulsar_security_core.js:41-52 | The key becomes SHA-256 of the signature. The session id is 64 hex characters, stamped with the clock. |
| `PulsarSecurity.SessionIdRevealsKey` | pulsar_security_core.js:43-49 | Decoding the public session id as hex gives exactly the stored session key. |
| `PulsarSecurity.EncryptData` | pulsar_security_core.js:57-72 | Encryption throws exactly when no key was generated, and succeeds whenever one was. It returns the 16-byte IV as 32 hex characters beside the hex ciphertext. |
| `PulsarSecurity.DecryptData` | pulsar_security_core.js:75-90 | The missing-key error happens exactly when no key was generated. With a key, an IV that does not decode to 16 bytes is refused exactly as `InvalidIv`, and ciphertext hex of odd length is refused. With a key, a 16-byte IV and even-length hex, the result is `Ok` exactly when the cipher decrypts, and it is what the cipher returned. |
| `PulsarSecurity.TamperedCiphertextRefused` | pulsar_security_core.js:86 | Sealed data with one hex digit appended is refused as odd-length hex instead of decrypting. |
| `PulsarSecurity.EncryptDecryptRoundTrip` | pulsar_security_core.js:57-90 | What `encryptData` returns decrypts to the original text under the same key, given a cipher that inverts itself. |
| `PulsarSecurity.KeyRequired` | pulsar_security_core.js:58-78 | Without a session key both directions throw. |
| `PulsarSecurity.SessionLifecycle` | pulsar_security_core.js:20-90 | These steps take a fresh object to a verified address and the signature's key, and a message seals and opens: verify, derive the key from the same signature, encrypt, decrypt. |
| `AuthBridge.StartupAsWritten` | angel-auth-bridge.js:36-46 | Startup proceeds exactly when the secret is present and 64 characters long. The key is what `Buffer.from(secret, 'hex')` yields. |
| `AuthBridge.StartupAcceptsNonHexSecret` | angel-auth-bridge.js:36-46 | Sixty-four `z`s pass the check as written and leave an empty key. |
| `AuthBridge.Startup` | angel-auth-bridge.js:36-46 | The corrected check accepts exactly a present 64-character hexadecimal secret. |
| `AuthBridge.StartupKeyIsFull` | angel-auth-bridge.js:36-46 | Every secret the corrected check accepts gives a 32-byte key, and the check as written accepts it with the same key. |
| `AuthBridge.HashPassword` | angel-auth-bridge.js:93-98 | A missing password or one under 8 characters is rejected before hashing. Otherwise the result is bcrypt with cost 12. |
| `AuthBridge.PasswordRoundTrip` | angel-auth-bridge.js:93-101 | A stored hash accepts the password it was made from and no other. |
| `AuthBridge.GenerateToken` | angel-auth-bridge.js:102-110 | The payload carries the user id, the scope (default `standard`), `legacyAccess: true` and the clock. The token expires seven days after issue and is signed with the secret. |
| `AuthBridge.JwtVerify` | angel-auth-bridge.js:113 | A token verifies exactly when it parses, was signed with this secret and has not expired. Its claims are returned. |
| `AuthBridge.VerifyToken` | angel-auth-bridge.js:111-117 | Every way `jwt.verify` can throw becomes null. Otherwise the claims are returned. |
| `AuthBridge.TokenLifecycle` | angel-auth-bridge.js:102-117 | An issued token verifies under its secret for seven days and not after, and never under another secret. |
| `AuthBridge.VerifySso` | angel-auth-bridge.js:72-85 | No header gives 403. Otherwise the first `Bearer ` is removed: a token that fails to verify gives 401, and a valid one passes with its user id. |
| `AuthBridge.BearerTokenAuthorizes` | angel-auth-bridge.js:78-81 | `Bearer <token>` authorises the token's user while the token is valid. |
| `AuthBridge.BareTokenAccepted` | angel-auth-bridge.js:79 | A header holding the token with no `Bearer ` anywhere in it is verified as it stands. |
| `AuthBridge.IssuedTokenPassesSso` | angel-auth-bridge.js:72-110 | A freshly issued token, presented as `Bearer <token>`, lets its user in. |
| `AuthBridge.GenerateUserId` | angel-auth-bridge.js:90-92 | The id is `angel_`, the clock reading written in decimal, `_`, then the four random bytes in lower-case hex (8 characters). |
| `AuthBridge.GenerateUserIdInjective` | angel-auth-bridge.js:90-92 | Different clock readings or random bytes give different ids. |
| `AuthBridge.Register` | angel-auth-bridge.js:118-134 | Registration fails exactly when the password is rejected. Otherwise the record is stored under the generated id, not wallet-verified, with no email check. |
| `AuthBridge.RegisterAddsOneRecord` | angel-auth-bridge.js:118-134 | Under a fresh id, exactly one record is added and every other one is kept. The new record is unverified and accepts its password. |
| `AuthBridge.LinkWallet` | angel-auth-bridge.js:142-178 | A missing field gives 400 with nothing changed. With every field present, a failed verification gives 500 with nothing changed, and only then. An unknown user after a successful verification gives 404 with the table unchanged, and only then. Success happens exactly when all fields are present, the signature verifies and the user exists. |
| `AuthBridge.LinkSuccess` | angel-auth-bridge.js:156-171 | On success only that user's wallet address and verified flag change. The verifier holds the address, and the token has scope `pulsar-verified-sso`. |
| `AuthBridge.UnknownUserAfterVerification` | angel-auth-bridge.js:149-159 | An unknown user is reported after verification has already moved the verifier's address. No account changes. |
| `AuthBridge.GenerateUserKey` | angel-auth-bridge.js:208-216 | The key is PBKDF2-SHA512 with 600000 iterations and 32 bytes, salted with the startup key. |
| `AuthBridge.UserKeyDependsOnConcatenation` | angel-auth-bridge.js:208-216 | Two users get the same vault key exactly when their id and password run together into the same text. |
| `AuthBridge.UserKeyCollision` | angel-auth-bridge.js:208-216 | User `ab` with password `c` and user `a` with password `bc` share a key. |

## Left out

- Floating point: `quoter.py` computes in IEEE doubles. The model uses exact
  reals, so rounding error in `(130/60)·(minutes/tons)` and in the total is
  not modelled.
- `float(tons)` raising on a non-numeric `tons` (an unhandled 500) is not
  modelled. `tons` arrives as an already-read number or as absent.
- Quoter.GetQuote: `float()` also reads `inf`, `nan` and `1e400`, and the model
  has no such values. An infinite load passes the `tons <= 0` check and makes
  every total infinite, so `inf < inf` never holds and AUTO answers 404. A `nan`
  load passes the check too, and the first plant with a round trip to the
  destination takes it to `math.ceil`, which raises (a 500).
- Quote display: the `round(…, 2)` copies and the `breakdown` text are not
  modelled.
- Python's `int()` and `str.strip()`: ASCII only. `int()` reads one optional
  sign and ASCII digits, and skips only space and `\t` to `\r` around them.
  `str.strip()` also removes `\x1c` to `\x1f`, as `str.isspace()` accepts
  them. Underscores between digits, other Unicode digits and non-ASCII
  whitespace such as `\x85` or `\xa0` are not modelled.
- The duplicated parts of `quoter.py` are not modelled: the first copy of the
  module header (lines 1-53) and the second `get_quote` (lines 168-226). The
  model follows lines 88-101 and 108-164.
- Flask, Express, CORS, rate limiting, `app.listen`, `process.exit`,
  `get_products` and the HTML page are not modelled.
- `data_parser.py` is not part of this model. Its behaviour is reconstructed
  from the assertions of its test file. Logging (the "File not found" error
  and the "Could not parse" warning) is left out. A missing file is the absent
  input.
- `Decimal`: the model reads only digits with at most one point. Signs,
  exponents and `NaN` or `Infinity` are treated as no price. The tests use none
  of them.
- Cryptography: bcrypt, JWT encoding and signing, PBKDF2-SHA512, SHA-256,
  AES-256-CBC and secp256k1 message recovery are not modelled.
  - bcrypt, JWT and PBKDF2 are free datatypes, so two results are equal
    exactly when their inputs are.
  - SHA-256, the cipher and the recovery are function parameters.
  - bcrypt's 72-byte password truncation is not modelled.
- The clock, `crypto.randomBytes` and the salts are parameters.
- `JWT_SECRET` being undefined is not modelled.
- `JSON.stringify` and `JSON.parse` around encryption are not modelled. The
  encrypted value is taken as its JSON text.
- Case folding is ASCII-only.
- String lengths count characters, not UTF-16 code units.
- AuthBridge.LinkWallet: the 500 from `generateToken` throwing after the user
  record has been updated is not modelled, since signing is symbolic and
  cannot fail here.
- `encryptVault`, `decryptVault` and the register, sso-login and
  validate-sso endpoints are not modelled: their bodies are omitted from the
  source.
- The dashboard endpoint and the rest of the repository are not modelled:
  Gemini calls, audio, readline loops, the HTTP proxy and process spawning.

## Findings

| source | as written | input that shows it | evidently intended | confidence | as-written member | corrected member |
|---|---|---|---|---|---|---|
| angel-auth-bridge.js:36-46 | Only presence and length are checked. `Buffer.from(secret, 'hex')` is trusted to throw on a bad secret, but it never throws: it stops at the first non-hex pair. | `ENCRYPTION_SECRET` = 64 × `z` passes and gives an empty key. | Accept only a 64-character hexadecimal secret, that is a 32-byte key, as the error message says. | high, not executed | `AuthBridge.StartupAsWritten`, `AuthBridge.StartupAcceptsNonHexSecret` | `AuthBridge.Startup`, `AuthBridge.StartupKeyIsFull` |
