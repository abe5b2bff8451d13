/** Properties of the TaxJar provider that relate several calculations, and worked
    scenarios (a domestic order, a Canadian destination, a EUR order, a service fault). */
module TaxJarProperties {
  import opened Wrappers
  import opened Text
  import opened TaxJarProvider

  /** The first tax class with an id is unique, so "the" default class and "the"
      class of a line are well defined. */
  lemma FirstWithIdIsUnique(classes: seq<TaxClass>, id: Guid, c1: TaxClass, c2: TaxClass)
    requires IsFirstWithId(classes, id, c1) && IsFirstWithId(classes, id, c2)
    ensures c1 == c2
  {
  }

  /** Line items are built one line at a time: the items for `a + b` are the items
      for `a` followed by those for `b`, and a fault in `a` is raised before
      anything in `b` is looked at. */
  lemma {:induction false} LineItemsOfConcatenation(a: seq<OrderLine>, b: seq<OrderLine>, lc: LineContext)
    ensures BuildLineItems(a + b, lc) ==
              match BuildLineItems(a, lc)
              case Err(e) => Err(e)
              case Ok(x) =>
                match BuildLineItems(b, lc)
                case Err(e) => Err(e)
                case Ok(y) => Ok(x + y)
  {
    if a == [] {
      assert a + b == b;
      match BuildLineItems(b, lc)
      case Err(e) =>
      case Ok(y) => assert [] + y == y;
    } else {
      assert (a + b)[0] == a[0];
      assert (a + b)[1..] == a[1..] + b;
      LineItemsOfConcatenation(a[1..], b, lc);
      match BuildLineItem(a[0], lc)
      case Err(e) =>
      case Ok(item) =>
        match BuildLineItems(a[1..], lc)
        case Err(e) =>
        case Ok(x) =>
          match BuildLineItems(b, lc)
          case Err(e) =>
          case Ok(y) =>
            assert [item] + (x + y) == ([item] + x) + y;
    }
  }

  /** An explicit tax-class id decides the line's tax code on its own: the store
      default, whatever it is, plays no part, even when no class has that id. */
  lemma ExplicitClassIgnoresStoreDefault(line: OrderLine, lc: LineContext, otherDefault: Option<TaxClass>)
    requires line.taxClassId.Some?
    ensures LineTaxCode(line, lc) == LineTaxCode(line, lc.(storeDefault := otherDefault))
    ensures !HasClass(lc.taxClasses, line.taxClassId.value) ==> LineTaxCode(line, lc).None?
  {
  }

  /** A line without a tax-class id gets the store default's code for the tax
      source, or no code when the store has no default class. */
  lemma LineWithoutClassUsesStoreDefault(line: OrderLine, lc: LineContext)
    requires line.taxClassId.None?
    ensures lc.storeDefault.None? ==> LineTaxCode(line, lc).None?
    ensures lc.storeDefault.Some? ==> LineTaxCode(line, lc) == lc.storeDefault.value.GetTaxCode(lc.taxSource)
  {
  }

  /** A line with a tax-class id that some class carries gets the code of the first
      such class for the tax source. */
  lemma LineWithKnownClassUsesThatClass(line: OrderLine, lc: LineContext, c: TaxClass)
    requires line.taxClassId.Some? && IsFirstWithId(lc.taxClasses, line.taxClassId.value, c)
    ensures LineTaxCode(line, lc) == c.GetTaxCode(lc.taxSource)
  {
  }

  /** The sum of the amounts of a breakdown. */
  function BreakdownTotal(b: seq<SalesTaxBreakdown>): real {
    if b == [] then 0.0 else b[0].amount.value + BreakdownTotal(b[1..])
  }

  /** The provider does not check that the total is the sum of the breakdown; it
      carries the service's figures over unchanged, so the result's total equals
      the sum of its breakdown exactly when the service's amount to collect equals
      the sum of its four collectable amounts. */
  lemma {:induction false} NormalizeKeepsTotals(response: Option<TaxResponse>, currencyId: Guid)
    requires Normalize(response, currencyId).Ok?
    ensures var res, b := Normalize(response, currencyId).value, response.value.breakdown.value;
            res.amount.value == BreakdownTotal(res.breakdown.value) <==>
              response.value.amountToCollect ==
                b.cityTaxCollectable + b.countyTaxCollectable + b.stateTaxCollectable + b.countryTaxCollectable
  {
    var e := Normalize(response, currencyId).value.breakdown.value;
    assert BreakdownTotal(e[3..]) == e[3].amount.value by {
      assert e[3..][1..] == [];
    }
    assert BreakdownTotal(e[2..]) == e[2].amount.value + BreakdownTotal(e[3..]) by {
      assert e[2..][1..] == e[3..];
    }
    assert BreakdownTotal(e[1..]) == e[1].amount.value + BreakdownTotal(e[2..]) by {
      assert e[1..][1..] == e[2..];
    }
    assert BreakdownTotal(e) == e[0].amount.value + BreakdownTotal(e[1..]);
  }

  /** The service is consulted only when the order gets past both checks: before
      that, any two services give the same invocation. */
  lemma ServiceIrrelevantWhenShortCircuited(
    ctx: SalesTaxContext, host: Host,
    s1: (Credentials, TaxRequest) -> ServiceOutcome, s2: (Credentials, TaxRequest) -> ServiceOutcome)
    requires HostAnswers(ctx, host)
    requires !CalculatesWithTaxJar(ctx, host)
    ensures Calculate(ctx, host, s1) == Calculate(ctx, host, s2)
  {
  }

  /** The jurisdiction map and the breakdown of a normalised result name the same
      four levels. */
  lemma BreakdownLevelsAreJurisdictionKeys(response: Option<TaxResponse>, currencyId: Guid)
    requires Normalize(response, currencyId).Ok?
    ensures var res := Normalize(response, currencyId).value;
            res.jurisdictions.value.Keys ==
              set i | 0 <= i < |res.breakdown.value| :: res.breakdown.value[i].name
  {
    var res := Normalize(response, currencyId).value;
    var names := set i | 0 <= i < |res.breakdown.value| :: res.breakdown.value[i].name;
    assert res.breakdown.value[0].name == "city";
    assert res.breakdown.value[1].name == "county";
    assert res.breakdown.value[2].name == "state";
    assert res.breakdown.value[3].name == "country";
    assert names == {"city", "county", "state", "country"};
  }

  // ------------------------------------------------------------- scenarios

  /** Country codes compare ignoring case, blanks do not count as codes. */
  lemma AddressExamples()
    ensures IsUsAddress(Address(None, None, None, Some("us"), Some("10001")))
    ensures IsUsAddress(Address(None, None, None, Some("uS"), Some(" 1")))
    ensures !IsUsAddress(Address(None, None, None, Some("  "), Some("10001")))
    ensures !IsUsAddress(Address(None, None, None, Some("US"), Some(" \t")))
    ensures !IsUsAddress(Address(None, None, None, Some(" US"), Some("10001")))
    ensures !IsUsAddress(Address(None, None, None, Some("CA"), Some("10001")))
    ensures !IsUsAddress(Address(None, None, None, None, Some("10001")))
  {
  }

  /** The `(int)` cast of a quantity truncates toward zero and throws outside the
      32-bit range. */
  lemma QuantityExamples()
    ensures DecimalToInt32(2.9) == Some(2)
    ensures DecimalToInt32(-2.9) == Some(-2)
    ensures DecimalToInt32(2147483647.5) == Some(MaxInt32)
    ensures DecimalToInt32(-2147483648.5) == Some(MinInt32)
    ensures DecimalToInt32(2147483648.0) == None
    ensures DecimalToInt32(-2147483649.0) == None
  {
  }

  const Usd: Guid := 1
  const Eur: Guid := 2
  const StoreId: Guid := 10
  const UsCountry: Guid := 100
  const LineId: Guid := 1000

  function ShopAddress(): Address {
    Address(Some("1 Main St"), Some("Springfield"), Some("IL"), Some("US"), Some("62701"))
  }

  function CustomerAddress(country: string): Address {
    Address(Some("2 Elm St"), Some("Chicago"), Some("IL"), Some(country), Some("60601"))
  }

  /** A one-line order (quantity 2 at 45.00) with subtotal 100.00 and shipping 10.00. */
  function ScenarioContext(currencyId: Guid, toCountry: string): SalesTaxContext {
    SalesTaxContext(
      Order(currencyId, StoreId, [OrderLine(LineId, Some("SKU-1"), 2.0, None)],
            ContactInfo(Some(UsCountry), None), ContactInfo(None, None)),
      OrderCalculation(100.0, 10.0, map[LineId := OrderLineCalculation(45.0, 0.0)]),
      ShopAddress(), CustomerAddress(toCountry),
      TaxJarSettings("sandbox-token", "live-token", false))
  }

  function ScenarioHost(): Host {
    Host(map[Usd := "USD", Eur := "EUR"], map[StoreId := Store(None)], map[StoreId := []])
  }

  function ScenarioResponse(): TaxResponse {
    TaxResponse(8.5, Some(JurisdictionNames(Some("CHICAGO"), Some("COOK"), Some("IL"), Some("US"))),
                Some(TaxBreakdown(1.0, 0.5, 6.0, 1.0)))
  }

  /** A TaxJar service that answers every request with the scenario response. */
  function AnswersScenario(creds: Credentials, request: TaxRequest): ServiceOutcome {
    Success(Some(ScenarioResponse()))
  }

  /** A TaxJar service whose every call throws. */
  function AlwaysFails(creds: Credentials, request: TaxRequest): ServiceOutcome {
    Failure
  }

  /** The request the domestic scenario sends: both addresses verbatim, the
      tax-exclusive subtotal and shipping, and its one line. */
  function ScenarioRequest(): TaxRequest {
    var from, to := ShopAddress(), CustomerAddress("US");
    TaxRequest(
      from.addressLine1, from.city, from.region, from.countryIsoCode, from.zipCode,
      to.addressLine1, to.city, to.region, to.countryIsoCode, to.zipCode,
      100.0, 10.0, [TaxLineItem(Some("SKU-1"), 2, None, 45.0, 0.0)])
  }

  lemma DomesticRequestScenario()
    ensures var ctx := ScenarioContext(Usd, "US");
            && ctx.order.storeId in ScenarioHost().stores && ctx.order.storeId in ScenarioHost().taxClasses
            && BuildRequest(ctx, ResolveLineContext(ctx, ScenarioHost())) == Ok(ScenarioRequest())
  {
    var ctx := ScenarioContext(Usd, "US");
    var lc := ResolveLineContext(ctx, ScenarioHost());
    var line := ctx.order.orderLines[0];
    assert DecimalToInt32(2.0) == Some(2);
    assert BuildLineItem(line, lc) == Ok(TaxLineItem(Some("SKU-1"), 2, None, 45.0, 0.0));
    assert BuildLineItems(ctx.order.orderLines, lc) == Ok([TaxLineItem(Some("SKU-1"), 2, None, 45.0, 0.0)]) by {
      assert ctx.order.orderLines[1..] == [];
      assert BuildLineItems(ctx.order.orderLines[1..], lc) == Ok([]);
      assert [TaxLineItem(Some("SKU-1"), 2, None, 45.0, 0.0)] + [] == [TaxLineItem(Some("SKU-1"), 2, None, 45.0, 0.0)];
    }
  }

  /** The result the domestic scenario expects: 8.50 in the order currency, the
      service's four jurisdiction names and its four collectable amounts. */
  function ScenarioResult(): SalesTaxResult {
    SalesTaxResult(
      Amount(8.5, Usd),
      Some(map["city" := Some("CHICAGO"), "county" := Some("COOK"), "state" := Some("IL"), "country" := Some("US")]),
      Some([SalesTaxBreakdown(Amount(1.0, Usd), "city"), SalesTaxBreakdown(Amount(0.5, Usd), "county"),
            SalesTaxBreakdown(Amount(6.0, Usd), "state"), SalesTaxBreakdown(Amount(1.0, Usd), "country")]))
  }

  /** The domestic scenario gets past both checks. */
  lemma DomesticOrderIsSent()
    ensures HostAnswers(ScenarioContext(Usd, "US"), ScenarioHost())
    ensures CalculatesWithTaxJar(ScenarioContext(Usd, "US"), ScenarioHost())
  {
    var ctx := ScenarioContext(Usd, "US");
    assert !IsWhiteSpace(ctx.fromAddress.zipCode.value[0]);
    assert !IsWhiteSpace(ctx.toAddress.zipCode.value[0]);
  }

  /** The scenario response normalises to the expected result, whose breakdown adds
      up to its total. */
  lemma DomesticResponseScenario()
    ensures Normalize(Some(ScenarioResponse()), Usd) == Ok(ScenarioResult())
    ensures |ScenarioResult().jurisdictions.value| == 4
    ensures BreakdownTotal(ScenarioResult().breakdown.value) == ScenarioResult().amount.value
  {
    NormalizeKeepsTotals(Some(ScenarioResponse()), Usd);
    assert ScenarioResult().jurisdictions.value.Keys == {"city", "county", "state", "country"};
  }

  /** A domestic USD order: three lookups, one live call with the order's figures,
      and the service's 8.50 as the result. */
  lemma DomesticOrderScenario()
    ensures Calculate(ScenarioContext(Usd, "US"), ScenarioHost(), AnswersScenario) ==
              Invocation(ScenarioResult(),
                         [GetCurrency(Usd), GetStore(StoreId), GetTaxClasses(StoreId)],
                         Some(ApiCall(Credentials("live-token", LiveApiUrl), ScenarioRequest())),
                         None)
  {
    DomesticOrderIsSent();
    DomesticRequestScenario();
    DomesticResponseScenario();
  }

  /** Shipping to Canada: zero in the order currency, no lookup, no call. */
  lemma CrossBorderScenario()
    ensures var r := Calculate(ScenarioContext(Usd, "CA"), ScenarioHost(), AlwaysFails);
            r == Invocation(ZeroResult(Usd), [], None, None)
  {
  }

  /** A EUR order between US addresses: zero, only the currency looked up, no call. */
  lemma ForeignCurrencyScenario()
    ensures var r := Calculate(ScenarioContext(Eur, "US"), ScenarioHost(), AnswersScenario);
            r == Invocation(ZeroResult(Eur), [GetCurrency(Eur)], None, None)
  {
  }

  /** A service fault on a domestic order is contained: zero, logged, after one call. */
  lemma ServiceFaultScenario()
    ensures var r := Calculate(ScenarioContext(Usd, "US"), ScenarioHost(), AlwaysFails);
            r.call.Some? && r.logged == Some(ServiceFault) && r.result == ZeroResult(Usd)
  {
  }
}
