/** The TaxJar sales-tax provider of Umbraco Commerce: `CalculateSalesTaxAsync`
    as a total function of the calculation context, the host's lookup results and
    the TaxJar service's answer.  The invocation it returns records, beside the
    result, which host lookups were made, which call reached the TaxJar API and
    which fault was logged. */
module TaxJarProvider {
  import opened Wrappers
  import opened Text

  /** The host's identifiers (currencies, stores, countries, regions, tax classes, order lines). */
  type Guid = int

  const SupportedCountry: string := "US"
  const RequiredCurrency: string := "USD"
  const SandboxApiUrl: string := "https://api.sandbox.taxjar.com"
  const LiveApiUrl: string := "https://api.taxjar.com"

  /** The jurisdiction levels of the result, in the order the breakdown lists them. */
  const Levels: seq<string> := ["city", "county", "state", "country"]

  const MinInt32: int := -0x8000_0000
  const MaxInt32: int := 0x7FFF_FFFF

  // ---------------------------------------------------------------- inputs

  /** The provider's settings: two API tokens and the test-mode switch. */
  datatype TaxJarSettings = TaxJarSettings(sandboxToken: string, liveToken: string, testMode: bool)

  /** A ship-from or ship-to address; every text field may be null. */
  datatype Address = Address(
    addressLine1: Option<string>,
    city: Option<string>,
    region: Option<string>,
    countryIsoCode: Option<string>,
    zipCode: Option<string>)

  /** The country and region of an order's shipping or payment information. */
  datatype ContactInfo = ContactInfo(countryId: Option<Guid>, regionId: Option<Guid>)

  /** An order line; the quantity is a decimal. */
  datatype OrderLine = OrderLine(id: Guid, sku: Option<string>, quantity: real, taxClassId: Option<Guid>)

  datatype Order = Order(
    currencyId: Guid,
    storeId: Guid,
    orderLines: seq<OrderLine>,
    shippingInfo: ContactInfo,
    paymentInfo: ContactInfo)

  /** The tax-exclusive prices the host computed for one order line. */
  datatype OrderLineCalculation = OrderLineCalculation(unitPriceWithoutTax: real, totalAdjustmentWithoutTax: real)

  /** The host's price calculation: tax-exclusive subtotal and shipping, and the
      per-line calculations keyed by order-line id. */
  datatype OrderCalculation = OrderCalculation(
    subtotalWithoutTax: real,
    shippingTotalWithoutTax: real,
    orderLines: map<Guid, OrderLineCalculation>)

  /** The jurisdiction whose rules govern the sale. */
  datatype TaxSource = TaxSource(countryId: Guid, regionId: Option<Guid>)

  /** A tax class; its jurisdiction-specific tax codes are given as a table, where a
      tax source without an entry has no code. */
  datatype TaxClass = TaxClass(id: Guid, taxCodes: map<TaxSource, Option<string>>) {
    function GetTaxCode(source: TaxSource): Option<string> {
      if source in taxCodes then taxCodes[source] else None
    }
  }

  datatype Store = Store(defaultTaxClassId: Option<Guid>)

  /** What the host's currency, store and tax services answer, keyed by id. */
  datatype Host = Host(
    currencyCodes: map<Guid, string>,
    stores: map<Guid, Store>,
    taxClasses: map<Guid, seq<TaxClass>>)

  /** The provider context the host hands to the calculation. */
  datatype SalesTaxContext = SalesTaxContext(
    order: Order,
    orderCalculation: OrderCalculation,
    fromAddress: Address,
    toAddress: Address,
    settings: TaxJarSettings)

  // ------------------------------------------------------- the TaxJar request

  datatype TaxLineItem = TaxLineItem(
    id: Option<string>,
    quantity: int,
    productTaxCode: Option<string>,
    unitPrice: real,
    discount: real)

  /** The body of the TaxJar `taxes` request. */
  datatype TaxRequest = TaxRequest(
    fromStreet: Option<string>, fromCity: Option<string>, fromState: Option<string>,
    fromCountry: Option<string>, fromZip: Option<string>,
    toStreet: Option<string>, toCity: Option<string>, toState: Option<string>,
    toCountry: Option<string>, toZip: Option<string>,
    amount: real,
    shipping: real,
    lineItems: seq<TaxLineItem>)

  /** The token and base URL the TaxJar client is built with. */
  datatype Credentials = Credentials(token: string, apiUrl: string)

  // ------------------------------------------------------ the TaxJar response

  datatype JurisdictionNames = JurisdictionNames(
    city: Option<string>, county: Option<string>, state: Option<string>, country: Option<string>)

  datatype TaxBreakdown = TaxBreakdown(
    cityTaxCollectable: real, countyTaxCollectable: real,
    stateTaxCollectable: real, countryTaxCollectable: real)

  datatype TaxResponse = TaxResponse(
    amountToCollect: real,
    jurisdictions: Option<JurisdictionNames>,
    breakdown: Option<TaxBreakdown>)

  /** What the TaxJar client's call gives back: a (possibly null) response, or a thrown fault. */
  datatype ServiceOutcome = Success(response: Option<TaxResponse>) | Failure

  // ------------------------------------------------------------------ output

  datatype Amount = Amount(value: real, currencyId: Guid)

  datatype SalesTaxBreakdown = SalesTaxBreakdown(amount: Amount, name: string)

  /** The calculation result; `None` for the jurisdictions or the breakdown means
      the provider left that property at the result constructor's default. */
  datatype SalesTaxResult = SalesTaxResult(
    amount: Amount,
    jurisdictions: Option<map<string, Option<string>>>,
    breakdown: Option<seq<SalesTaxBreakdown>>)

  /** The faults that can arise inside the provider's `try` block. */
  datatype Fault =
    | MissingLineCalculation(lineId: Guid)
    | QuantityOverflow(lineId: Guid)
    | ServiceFault
    | NullResponse
    | NullJurisdictions
    | NullBreakdown

  datatype Lookup = GetCurrency(currencyId: Guid) | GetStore(storeId: Guid) | GetTaxClasses(ofStore: Guid)

  datatype ApiCall = ApiCall(credentials: Credentials, request: TaxRequest)

  /** One run of the calculation: its result, the host lookups made (in order),
      the call made to the TaxJar API, and the fault written to the error log. */
  datatype Invocation = Invocation(
    result: SalesTaxResult,
    lookups: seq<Lookup>,
    call: Option<ApiCall>,
    logged: Option<Fault>)

  /** The zero-tax result in the given currency, with nothing else set. */
  function ZeroResult(currencyId: Guid): SalesTaxResult {
    SalesTaxResult(Amount(0.0, currencyId), None, None)
  }

  /** Every amount in the result is in the given currency. */
  predicate InCurrency(r: SalesTaxResult, currencyId: Guid) {
    && r.amount.currencyId == currencyId
    && (r.breakdown.Some? ==>
          forall i :: 0 <= i < |r.breakdown.value| ==> r.breakdown.value[i].amount.currencyId == currencyId)
  }

  // ---------------------------------------------------------- eligibility

  /** The four spellings of "US" that the ignore-case comparison accepts. */
  predicate IsUsSpelling(s: string) {
    |s| == 2 && (s[0] == 'U' || s[0] == 'u') && (s[1] == 'S' || s[1] == 's')
  }

  /** The eight spellings of "USD" that the ignore-case comparison accepts. */
  predicate IsUsdSpelling(s: string) {
    |s| == 3 && (s[0] == 'U' || s[0] == 'u') && (s[1] == 'S' || s[1] == 's') && (s[2] == 'D' || s[2] == 'd')
  }

  /** An address the provider can calculate for: a country that is not blank and
      is "US" ignoring case, and a zip code that is not blank. */
  function IsUsAddress(a: Address): (r: bool)
    ensures r <==>
              && a.countryIsoCode.Some? && IsUsSpelling(a.countryIsoCode.value)
              && a.zipCode.Some? && exists i :: 0 <= i < |a.zipCode.value| && !IsWhiteSpace(a.zipCode.value[i])
  {
    match a.countryIsoCode
    case None => false  // a null country is blank
    case Some(country) =>
      EqualsUpperWordSpellings(country, SupportedCountry);
      && !IsNullOrWhiteSpace(a.countryIsoCode)
      && !IsNullOrWhiteSpace(a.zipCode)
      && EqualsOrdinalIgnoreCase(country, SupportedCountry)
  }

  /** The address check that opens the calculation: both addresses must be US
      addresses with a zip code. */
  function Eligible(from: Address, to: Address): (r: bool)
    ensures r <==> IsUsAddress(from) && IsUsAddress(to)
    ensures r ==> from.countryIsoCode.Some? && to.countryIsoCode.Some?
                  && IsUsSpelling(from.countryIsoCode.value) && IsUsSpelling(to.countryIsoCode.value)
  {
    IsUsAddress(from) && IsUsAddress(to)
  }

  /** The currency check: the order currency's code is "USD", ignoring case. */
  function IsRequiredCurrency(code: string): (r: bool)
    ensures r <==> IsUsdSpelling(code)
  {
    EqualsUpperWordSpellings(code, RequiredCurrency);
    EqualsOrdinalIgnoreCase(code, RequiredCurrency)
  }

  // ---------------------------------------------------- context resolution

  /** Some tax class in the list has the id. */
  predicate HasClass(classes: seq<TaxClass>, id: Guid) {
    exists k :: 0 <= k < |classes| && classes[k].id == id
  }

  /** `c` is the first tax class in the list with the id. */
  predicate IsFirstWithId(classes: seq<TaxClass>, id: Guid, c: TaxClass) {
    exists k :: 0 <= k < |classes| && classes[k] == c && c.id == id
                && forall j :: 0 <= j < k ==> classes[j].id != id
  }

  /** `FirstOrDefault(x => x.Id == id)` over the store's tax classes. */
  function FirstWithId(classes: seq<TaxClass>, id: Guid): (r: Option<TaxClass>)
    ensures r.None? <==> !HasClass(classes, id)
    ensures r.Some? ==> IsFirstWithId(classes, id, r.value)
  {
    if classes == [] then None
    else if classes[0].id == id then Some(classes[0])
    else
      var rest := FirstWithId(classes[1..], id);
      assert HasClass(classes, id) ==> HasClass(classes[1..], id) by {
        if HasClass(classes, id) {
          var k :| 0 <= k < |classes| && classes[k].id == id;
          assert classes[1..][k - 1].id == id;
        }
      }
      assert rest.Some? ==> IsFirstWithId(classes, id, rest.value) by {
        if rest.Some? {
          var k :| 0 <= k < |classes[1..]| && classes[1..][k] == rest.value && rest.value.id == id
                   && forall j :: 0 <= j < k ==> classes[1..][j].id != id;
          assert classes[k + 1] == rest.value;
          assert forall j :: 0 <= j < k + 1 ==> classes[j].id != id by {
            forall j | 0 <= j < k + 1 ensures classes[j].id != id {
              if j > 0 { assert classes[j] == classes[1..][j - 1]; }
            }
          }
        }
      }
      rest
  }

  /** The store's default tax class: the first class with the store's default id,
      or none when the store has no default id or no class carries it. */
  function StoreDefaultTaxClass(store: Store, classes: seq<TaxClass>): (r: Option<TaxClass>)
    ensures r.Some? <==> store.defaultTaxClassId.Some? && HasClass(classes, store.defaultTaxClassId.value)
    ensures r.Some? ==> IsFirstWithId(classes, store.defaultTaxClassId.value, r.value)
  {
    if store.defaultTaxClassId.Some? then FirstWithId(classes, store.defaultTaxClassId.value) else None
  }

  /** The jurisdiction named by shipping or payment information: none when its
      country is not set, else its country with its (possibly absent) region. */
  function Jurisdiction(info: ContactInfo): Option<TaxSource> {
    if info.countryId.Some? then Some(TaxSource(info.countryId.value, info.regionId)) else None
  }

  /** The order's tax source: the shipping jurisdiction when the shipping country
      is set, else the payment jurisdiction, whose country must then be set.  The
      country and region always come from the same one of the two. */
  function ResolveTaxSource(order: Order): (r: TaxSource)
    requires order.shippingInfo.countryId.Some? || order.paymentInfo.countryId.Some?
    ensures Jurisdiction(order.shippingInfo).Some? ==> Jurisdiction(order.shippingInfo) == Some(r)
    ensures Jurisdiction(order.shippingInfo).None? ==> Jurisdiction(order.paymentInfo) == Some(r)
  {
    if order.shippingInfo.countryId.Some?
    then TaxSource(order.shippingInfo.countryId.value, order.shippingInfo.regionId)
    else TaxSource(order.paymentInfo.countryId.value, order.paymentInfo.regionId)
  }

  /** What each order line is resolved against: the per-line calculations, the
      store's tax classes, its default class and the tax source. */
  datatype LineContext = LineContext(
    calculations: map<Guid, OrderLineCalculation>,
    taxClasses: seq<TaxClass>,
    storeDefault: Option<TaxClass>,
    taxSource: TaxSource)

  // ------------------------------------------------------ request building

  /** The tax class of an order line: with an explicit tax-class id, the first class
      with that id, or none when no class has it (never the store default);
      without one, the store default. */
  function LineTaxClass(line: OrderLine, lc: LineContext): (r: Option<TaxClass>)
    ensures line.taxClassId.None? ==> r == lc.storeDefault
    ensures line.taxClassId.Some? ==>
              && (r.None? <==> !HasClass(lc.taxClasses, line.taxClassId.value))
              && (r.Some? ==> IsFirstWithId(lc.taxClasses, line.taxClassId.value, r.value))
  {
    if line.taxClassId.Some? then FirstWithId(lc.taxClasses, line.taxClassId.value) else lc.storeDefault
  }

  /** The line's tax code: the chosen class's code for the tax source, or none
      when no class was chosen. */
  function LineTaxCode(line: OrderLine, lc: LineContext): (r: Option<string>)
    ensures LineTaxClass(line, lc).None? ==> r.None?
    ensures LineTaxClass(line, lc).Some? ==> r == LineTaxClass(line, lc).value.GetTaxCode(lc.taxSource)
  {
    match LineTaxClass(line, lc)
    case None => None
    case Some(c) => c.GetTaxCode(lc.taxSource)
  }

  /** The C# cast `(int)` of a decimal: rounds toward zero. */
  function TruncateTowardZero(q: real): (r: int)
    ensures 0.0 <= q ==> 0 <= r && r as real <= q < r as real + 1.0
    ensures q < 0.0 ==> r <= 0 && r as real - 1.0 < q <= r as real
  {
    if 0.0 <= q then q.Floor else -((-q).Floor)
  }

  /** The decimal-to-int cast: the truncated value, or an overflow when that value
      is not a 32-bit integer. */
  function DecimalToInt32(q: real): (r: Option<int>)
    ensures r.Some? <==> (MinInt32 - 1) as real < q < (MaxInt32 + 1) as real
    ensures r.Some? ==> MinInt32 <= r.value <= MaxInt32 && r.value == TruncateTowardZero(q)
  {
    var t := TruncateTowardZero(q);
    if MinInt32 <= t <= MaxInt32 then Some(t) else None
  }

  /** One TaxJar line item for an order line.  Its calculation is looked up first
      (a missing one throws), then the quantity is cast (an overflow throws). */
  function BuildLineItem(line: OrderLine, lc: LineContext): (r: Result<TaxLineItem, Fault>)
    ensures line.id !in lc.calculations ==> r == Err(MissingLineCalculation(line.id))
    ensures line.id in lc.calculations && DecimalToInt32(line.quantity).None? ==> r == Err(QuantityOverflow(line.id))
    ensures r.Ok? <==> line.id in lc.calculations && DecimalToInt32(line.quantity).Some?
    ensures r.Ok? ==>
              && r.value.id == line.sku
              && r.value.quantity == TruncateTowardZero(line.quantity)
              && r.value.productTaxCode == LineTaxCode(line, lc)
              && r.value.unitPrice == lc.calculations[line.id].unitPriceWithoutTax
              && r.value.discount == lc.calculations[line.id].totalAdjustmentWithoutTax
  {
    if line.id !in lc.calculations then Err(MissingLineCalculation(line.id))
    else
      var lineCalc := lc.calculations[line.id];
      match DecimalToInt32(line.quantity)
      case None => Err(QuantityOverflow(line.id))
      case Some(quantity) =>
        Ok(TaxLineItem(line.sku, quantity, LineTaxCode(line, lc), lineCalc.unitPriceWithoutTax, lineCalc.totalAdjustmentWithoutTax))
  }

  /** The `Select(...).ToList()` over the order lines: one item per line in line
      order, or the fault of the first line that throws. */
  function BuildLineItems(lines: seq<OrderLine>, lc: LineContext): (r: Result<seq<TaxLineItem>, Fault>)
    ensures r.Ok? <==> forall i :: 0 <= i < |lines| ==> BuildLineItem(lines[i], lc).Ok?
    ensures r.Ok? ==> |r.value| == |lines|
                      && forall i :: 0 <= i < |lines| ==> BuildLineItem(lines[i], lc) == Ok(r.value[i])
    ensures r.Err? ==> exists k :: 0 <= k < |lines| && BuildLineItem(lines[k], lc) == Err(r.error)
                                   && forall j :: 0 <= j < k ==> BuildLineItem(lines[j], lc).Ok?
  {
    if lines == [] then Ok([])
    else
      match BuildLineItem(lines[0], lc)
      case Err(e) => Err(e)
      case Ok(item) =>
        var rest := BuildLineItems(lines[1..], lc);
        assert forall i :: 1 <= i < |lines| ==> lines[i] == lines[1..][i - 1];
        match rest
        case Err(e) =>
          assert exists k :: 0 <= k < |lines| && BuildLineItem(lines[k], lc) == Err(e)
                             && forall j :: 0 <= j < k ==> BuildLineItem(lines[j], lc).Ok? by {
            var k :| 0 <= k < |lines[1..]| && BuildLineItem(lines[1..][k], lc) == Err(e)
                     && forall j :: 0 <= j < k ==> BuildLineItem(lines[1..][j], lc).Ok?;
            assert BuildLineItem(lines[k + 1], lc) == Err(e);
          }
          Err(e)
        case Ok(items) => Ok([item] + items)
  }

  /** The ship-from address as the request carries it. */
  function RequestFromAddress(req: TaxRequest): Address {
    Address(req.fromStreet, req.fromCity, req.fromState, req.fromCountry, req.fromZip)
  }

  /** The ship-to address as the request carries it. */
  function RequestToAddress(req: TaxRequest): Address {
    Address(req.toStreet, req.toCity, req.toState, req.toCountry, req.toZip)
  }

  /** The TaxJar request for the order: both addresses verbatim, the tax-exclusive
      subtotal and shipping, and one line item per order line; or the fault a line
      raised while the request was built. */
  function BuildRequest(ctx: SalesTaxContext, lc: LineContext): (r: Result<TaxRequest, Fault>)
    ensures r.Ok? <==> forall i :: 0 <= i < |ctx.order.orderLines| ==> BuildLineItem(ctx.order.orderLines[i], lc).Ok?
    ensures r.Err? ==> r == Err(BuildLineItems(ctx.order.orderLines, lc).error)
    ensures r.Ok? ==>
              && RequestFromAddress(r.value) == ctx.fromAddress
              && RequestToAddress(r.value) == ctx.toAddress
              && r.value.amount == ctx.orderCalculation.subtotalWithoutTax
              && r.value.shipping == ctx.orderCalculation.shippingTotalWithoutTax
              && |r.value.lineItems| == |ctx.order.orderLines|
              && forall i :: 0 <= i < |ctx.order.orderLines| ==>
                   BuildLineItem(ctx.order.orderLines[i], lc) == Ok(r.value.lineItems[i])
  {
    var from, to := ctx.fromAddress, ctx.toAddress;
    match BuildLineItems(ctx.order.orderLines, lc)
    case Err(e) => Err(e)
    case Ok(items) =>
      Ok(TaxRequest(
           from.addressLine1, from.city, from.region, from.countryIsoCode, from.zipCode,
           to.addressLine1, to.city, to.region, to.countryIsoCode, to.zipCode,
           ctx.orderCalculation.subtotalWithoutTax,
           ctx.orderCalculation.shippingTotalWithoutTax,
           items))
  }

  /** The client's token and base URL: the sandbox pair in test mode, the live pair
      otherwise; a token is never sent to the other environment's URL. */
  function SelectCredentials(settings: TaxJarSettings): (r: Credentials)
    ensures r.apiUrl == SandboxApiUrl || r.apiUrl == LiveApiUrl
    ensures r.apiUrl == SandboxApiUrl <==> settings.testMode
    ensures r.apiUrl == SandboxApiUrl ==> r.token == settings.sandboxToken
    ensures r.apiUrl == LiveApiUrl ==> r.token == settings.liveToken
  {
    Credentials(
      if settings.testMode then settings.sandboxToken else settings.liveToken,
      if settings.testMode then SandboxApiUrl else LiveApiUrl)
  }

  // ---------------------------------------------------- response handling

  /** The jurisdiction name the response gives for a level. */
  function NameAt(j: JurisdictionNames, level: string): Option<string> {
    match level
    case "city" => j.city
    case "county" => j.county
    case "state" => j.state
    case _ => j.country
  }

  /** The tax the response says is collectable at a level. */
  function CollectableAt(b: TaxBreakdown, level: string): real {
    match level
    case "city" => b.cityTaxCollectable
    case "county" => b.countyTaxCollectable
    case "state" => b.stateTaxCollectable
    case _ => b.countryTaxCollectable
  }

  /** The result for a TaxJar response: the amount to collect in the order currency,
      the four jurisdiction names keyed by level, and one breakdown entry per level
      in the order city, county, state, country.  Reading a null response, null
      jurisdictions or a null breakdown throws, in that order. */
  function Normalize(response: Option<TaxResponse>, currencyId: Guid): (r: Result<SalesTaxResult, Fault>)
    ensures r.Ok? <==> response.Some? && response.value.jurisdictions.Some? && response.value.breakdown.Some?
    ensures response.None? ==> r == Err(NullResponse)
    ensures response.Some? && response.value.jurisdictions.None? ==> r == Err(NullJurisdictions)
    ensures response.Some? && response.value.jurisdictions.Some? && response.value.breakdown.None? ==> r == Err(NullBreakdown)
    ensures r.Ok? ==>
              var res, resp := r.value, response.value;
              && res.amount == Amount(resp.amountToCollect, currencyId)
              && res.jurisdictions.Some? && res.jurisdictions.value.Keys == {"city", "county", "state", "country"}
              && (forall level :: level in res.jurisdictions.value ==>
                    res.jurisdictions.value[level] == NameAt(resp.jurisdictions.value, level))
              && res.breakdown.Some? && |res.breakdown.value| == |Levels|
              && (forall i :: 0 <= i < |Levels| ==>
                    res.breakdown.value[i] == SalesTaxBreakdown(Amount(CollectableAt(resp.breakdown.value, Levels[i]), currencyId), Levels[i]))
  {
    match response
    case None => Err(NullResponse)
    case Some(resp) =>
      match resp.jurisdictions
      case None => Err(NullJurisdictions)
      case Some(j) =>
        match resp.breakdown
        case None => Err(NullBreakdown)
        case Some(b) =>
          Ok(SalesTaxResult(
               Amount(resp.amountToCollect, currencyId),
               Some(map["city" := j.city, "county" := j.county, "state" := j.state, "country" := j.country]),
               Some([
                 SalesTaxBreakdown(Amount(b.cityTaxCollectable, currencyId), "city"),
                 SalesTaxBreakdown(Amount(b.countyTaxCollectable, currencyId), "county"),
                 SalesTaxBreakdown(Amount(b.stateTaxCollectable, currencyId), "state"),
                 SalesTaxBreakdown(Amount(b.countryTaxCollectable, currencyId), "country")])))
  }

  /** The `try` block: build the request, call TaxJar once, normalise the answer.
      Gives the call made (none when building the request threw) and the result or
      the fault. */
  function TryCalculate(
    ctx: SalesTaxContext, lc: LineContext, creds: Credentials,
    service: (Credentials, TaxRequest) -> ServiceOutcome): (r: (Option<ApiCall>, Result<SalesTaxResult, Fault>))
    ensures r.0.Some? <==> BuildRequest(ctx, lc).Ok?
    ensures r.0.Some? ==> r.0.value == ApiCall(creds, BuildRequest(ctx, lc).value)
    ensures r.0.None? ==> r.1 == Err(BuildRequest(ctx, lc).error)
    ensures r.0.Some? && service(creds, r.0.value.request).Failure? ==> r.1 == Err(ServiceFault)
    ensures r.0.Some? && service(creds, r.0.value.request).Success? ==>
              r.1 == Normalize(service(creds, r.0.value.request).response, ctx.order.currencyId)
  {
    match BuildRequest(ctx, lc)
    case Err(e) => (None, Err(e))
    case Ok(request) =>
      var call := ApiCall(creds, request);
      match service(creds, request)
      case Failure => (Some(call), Err(ServiceFault))
      case Success(response) => (Some(call), Normalize(response, ctx.order.currencyId))
  }

  // ------------------------------------------------------------ the pipeline

  /** What the code assumes of the host on the path it takes: the order currency
      exists once the addresses pass; the store and its tax classes exist, and a
      shipping or payment country is set, once the currency passes too.  Failures
      there happen outside the `try` and would propagate. */
  predicate HostAnswers(ctx: SalesTaxContext, host: Host) {
    Eligible(ctx.fromAddress, ctx.toAddress) ==>
      && ctx.order.currencyId in host.currencyCodes
      && (IsRequiredCurrency(host.currencyCodes[ctx.order.currencyId]) ==>
            && ctx.order.storeId in host.stores
            && ctx.order.storeId in host.taxClasses
            && (ctx.order.shippingInfo.countryId.Some? || ctx.order.paymentInfo.countryId.Some?))
  }

  /** The line context the pipeline resolves for an eligible USD order. */
  function ResolveLineContext(ctx: SalesTaxContext, host: Host): (lc: LineContext)
    requires ctx.order.storeId in host.stores && ctx.order.storeId in host.taxClasses
    requires ctx.order.shippingInfo.countryId.Some? || ctx.order.paymentInfo.countryId.Some?
    ensures lc.calculations == ctx.orderCalculation.orderLines
    ensures lc.taxClasses == host.taxClasses[ctx.order.storeId]
    ensures lc.storeDefault == StoreDefaultTaxClass(host.stores[ctx.order.storeId], lc.taxClasses)
    ensures lc.taxSource == ResolveTaxSource(ctx.order)
  {
    var classes := host.taxClasses[ctx.order.storeId];
    LineContext(
      ctx.orderCalculation.orderLines,
      classes,
      StoreDefaultTaxClass(host.stores[ctx.order.storeId], classes),
      ResolveTaxSource(ctx.order))
  }

  /** The order gets past both checks and is sent to TaxJar. */
  predicate CalculatesWithTaxJar(ctx: SalesTaxContext, host: Host)
    requires HostAnswers(ctx, host)
  {
    Eligible(ctx.fromAddress, ctx.toAddress) && IsRequiredCurrency(host.currencyCodes[ctx.order.currencyId])
  }

  /** `CalculateSalesTaxAsync`. */
  function Calculate(
    ctx: SalesTaxContext, host: Host,
    service: (Credentials, TaxRequest) -> ServiceOutcome): (r: Invocation)
    requires HostAnswers(ctx, host)
    ensures InCurrency(r.result, ctx.order.currencyId)
    // addresses not both US with a zip: zero, nothing looked up, nothing called
    ensures !Eligible(ctx.fromAddress, ctx.toAddress) ==>
              r == Invocation(ZeroResult(ctx.order.currencyId), [], None, None)
    // currency not USD: zero, only the currency looked up, nothing called
    ensures Eligible(ctx.fromAddress, ctx.toAddress) && !IsRequiredCurrency(host.currencyCodes[ctx.order.currencyId]) ==>
              r == Invocation(ZeroResult(ctx.order.currencyId), [GetCurrency(ctx.order.currencyId)], None, None)
    // otherwise all three lookups; one call exactly when the request could be built
    ensures CalculatesWithTaxJar(ctx, host) ==>
              var request := BuildRequest(ctx, ResolveLineContext(ctx, host));
              && r.lookups == [GetCurrency(ctx.order.currencyId), GetStore(ctx.order.storeId), GetTaxClasses(ctx.order.storeId)]
              && (r.call.Some? <==> request.Ok?)
              && (request.Ok? ==> r.call.value == ApiCall(SelectCredentials(ctx.settings), request.value))
              && (request.Err? ==> r.logged == Some(request.error))
    // a fault is contained: logged once, and the result is zero
    ensures r.logged.Some? ==> r.result == ZeroResult(ctx.order.currencyId)
    ensures r.call.Some? ==>
              match service(r.call.value.credentials, r.call.value.request)
              case Failure => r.logged == Some(ServiceFault)
              case Success(response) =>
                match Normalize(response, ctx.order.currencyId)
                case Ok(res) => r.logged.None? && r.result == res
                case Err(e) => r.logged == Some(e)
  {
    var zero := ZeroResult(ctx.order.currencyId);
    if !Eligible(ctx.fromAddress, ctx.toAddress) then
      Invocation(zero, [], None, None)
    else
      var currencyLookup := [GetCurrency(ctx.order.currencyId)];
      if !IsRequiredCurrency(host.currencyCodes[ctx.order.currencyId]) then
        Invocation(zero, currencyLookup, None, None)
      else
        var lookups := currencyLookup + [GetStore(ctx.order.storeId), GetTaxClasses(ctx.order.storeId)];
        var lc := ResolveLineContext(ctx, host);
        var creds := SelectCredentials(ctx.settings);
        var (call, outcome) := TryCalculate(ctx, lc, creds, service);
        match outcome
        case Ok(res) => Invocation(res, lookups, call, None)
        case Err(fault) => Invocation(zero, lookups, call, Some(fault))
  }
}
