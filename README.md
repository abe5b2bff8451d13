# TaxJar sales-tax provider for Umbraco Commerce, modelled in Dafny

This project models `TaxJarSalesTaxProvider.CalculateSalesTaxAsync`, the sales-tax
provider that Umbraco Commerce calls while it prices an order. The provider takes
the order, its ship-from and ship-to addresses, the host's price calculation and the
provider settings (sandbox token, live token, test mode). It then does the following:

- It returns a zero-tax result unless both addresses are US addresses with a zip code.
- It returns a zero-tax result unless the order currency is USD.
- It resolves the store's tax classes, the store's default tax class and the tax
  source. The tax source is the shipping jurisdiction, or else the payment jurisdiction.
- It builds a TaxJar `taxes` request with one line item per order line.
- It sends the request once, to the sandbox or the live API.
- It turns the answer into an amount plus a city/county/state/country breakdown.
  Any fault inside its `try` block becomes a logged zero result.

The provider is a chain of guarded early returns and mappings, so the model is
pure: datatypes, functions and lemmas.

- `wrappers.dfy` (module `Wrappers`): `Option` stands for C# `null`; `Result` stands for
  a step that may throw.
- `text.dfy` (module `Text`): the .NET string semantics the checks depend on,
  `string.IsNullOrWhiteSpace` and `Equals(_, StringComparison.OrdinalIgnoreCase)`.
- `taxjar_provider.dfy` (module `TaxJarProvider`): the inputs, the TaxJar request and
  response, the result, and every stage of the pipeline up to `Calculate`.
  - The host's currency, store and tax-class services are given as a `Host` value of
    maps.
  - The TaxJar client call is a function argument `(Credentials, TaxRequest) -> ServiceOutcome`.
  - `Calculate` returns an `Invocation`. It records the result, the host lookups made in
    order, the API call made (credentials and request) and the fault written to the log.
    This makes "no lookup", "no call" and "logged once" statable.
- `taxjar_properties.dfy` (module `TaxJarProperties`): lemmas that relate several
  calculations, and worked scenarios (a domestic order, a Canadian destination, a EUR
  order, a service fault).

Points where the code's behaviour is easy to misread:

- An address fails when its country or zip code is null, empty or only white space.
  A non-empty string of spaces is not enough.
- A line with an explicit tax-class id that matches no class gets no tax code. It does
  not fall back to the store default, which is used only for lines without an id.
- Only the request building, the TaxJar call and the reading of the response are
  contained. Failures of the currency, store and tax-class lookups and of the client
  construction happen before the `try` and propagate. The model makes the data they
  need a precondition (`HostAnswers`) that applies only on the path that reaches them.
- Nothing checks that the total equals the sum of the breakdown. The model proves that
  the provider passes the service's figures through unchanged (`NormalizeKeepsTotals`).

## Model

| member | source | states |
|---|---|---|
| Text.WhiteSpaceIsListed | src/Umbraco.Commerce.SalesTaxProviders.TaxJar/TaxJarSalesTaxProvider.cs:26-30 | the white-space test used by `IsNullOrWhiteSpace` holds of exactly 25 characters: U+0009 to U+000D, U+0085, the Unicode space separators, U+2028 and U+2029 |
| Text.IsNullOrWhiteSpace | src/Umbraco.Commerce.SalesTaxProviders.TaxJar/TaxJarSalesTaxProvider.cs:26-30 | a string is not blank exactly when it is non-null and has a character that is not .NET white space |
| Text.EqualsOrdinalIgnoreCase | src/Umbraco.Commerce.SalesTaxProviders.TaxJar/TaxJarSalesTaxProvider.cs:28 | ignore-case equality holds exactly when the lengths agree and the characters agree pairwise after ordinal upper-casing |
| Text.EqualsUpperWordSpellings | src/Umbraco.Commerce.SalesTaxProviders.TaxJar/TaxJarSalesTaxProvider.cs:38 | against an upper-case ASCII word such as "US" or "USD", the comparison accepts exactly the spellings with each letter in either case |
| Text.EqualsWordIsNotBlank | src/Umbraco.Commerce.SalesTaxProviders.TaxJar/TaxJarSalesTaxProvider.cs:26-31 | a country code that passes the "US" test is never blank, so the blank test on the country is subsumed by the "US" test |
| TaxJarProvider.IsUsAddress | src/Umbraco.Commerce.SalesTaxProviders.TaxJar/TaxJarSalesTaxProvider.cs:26-31 | an address passes exactly when its country is one of "US", "Us", "uS", "us" and its zip has a non-white-space character; "  " and " US" fail |
| TaxJarProvider.Eligible | src/Umbraco.Commerce.SalesTaxProviders.TaxJar/TaxJarSalesTaxProvider.cs:26-34 | the calculation proceeds exactly when both the ship-from and the ship-to address pass |
| TaxJarProvider.IsRequiredCurrency | src/Umbraco.Commerce.SalesTaxProviders.TaxJar/TaxJarSalesTaxProvider.cs:37-41 | the currency passes exactly when its code is "USD" in some mix of upper and lower case |
| TaxJarProvider.FirstWithId | src/Umbraco.Commerce.SalesTaxProviders.TaxJar/TaxJarSalesTaxProvider.cs:90 | `FirstOrDefault` by id gives none exactly when no class has the id, and otherwise the first class in the list that has it |
| TaxJarProvider.StoreDefaultTaxClass | src/Umbraco.Commerce.SalesTaxProviders.TaxJar/TaxJarSalesTaxProvider.cs:46-48 | the store default exists exactly when the store names a default id that some class carries, and is then the first class with that id |
| TaxJarProvider.ResolveTaxSource | src/Umbraco.Commerce.SalesTaxProviders.TaxJar/TaxJarSalesTaxProvider.cs:49-51 | the tax source is the shipping jurisdiction when the shipping country is set, else the payment jurisdiction; country and region never come from different sources; the payment country is required only in the fallback |
| TaxJarProvider.LineTaxClass | src/Umbraco.Commerce.SalesTaxProviders.TaxJar/TaxJarSalesTaxProvider.cs:89-91 | a line without a class id takes the store default; a line with one takes the first class with that id, or none when no class has it, never the default |
| TaxJarProvider.LineTaxCode | src/Umbraco.Commerce.SalesTaxProviders.TaxJar/TaxJarSalesTaxProvider.cs:97 | the tax code is absent when no class was chosen; when a class was chosen it is that class's code for the tax source |
| TaxJarProvider.TruncateTowardZero | src/Umbraco.Commerce.SalesTaxProviders.TaxJar/TaxJarSalesTaxProvider.cs:96 | the `(int)` cast drops the fraction toward zero: the result has the input's sign and lies within one of it, on the zero side |
| TaxJarProvider.DecimalToInt32 | src/Umbraco.Commerce.SalesTaxProviders.TaxJar/TaxJarSalesTaxProvider.cs:96 | the cast succeeds exactly when the quantity lies strictly between -2147483649 and 2147483648, and then gives the truncated value, a 32-bit integer |
| TaxJarProvider.BuildLineItem | src/Umbraco.Commerce.SalesTaxProviders.TaxJar/TaxJarSalesTaxProvider.cs:87-100 | a missing line calculation throws first, then an overflowing quantity; otherwise the item carries the SKU, the truncated quantity, the resolved tax code, and the tax-exclusive unit price and adjustment |
| TaxJarProvider.BuildLineItems | src/Umbraco.Commerce.SalesTaxProviders.TaxJar/TaxJarSalesTaxProvider.cs:85-102 | the items are built exactly when every line builds; there is then one item per line in line order; otherwise the fault is that of the first failing line |
| TaxJarProvider.BuildRequest | src/Umbraco.Commerce.SalesTaxProviders.TaxJar/TaxJarSalesTaxProvider.cs:62-103 | both addresses can be read back from the request unchanged; the amount is the tax-exclusive subtotal and the shipping is the tax-exclusive shipping total; the items correspond one to one with the order lines; or the first line fault |
| TaxJarProvider.SelectCredentials | src/Umbraco.Commerce.SalesTaxProviders.TaxJar/TaxJarSalesTaxProvider.cs:54-57 | the sandbox URL is used exactly in test mode and the live URL otherwise; each URL is paired only with its own environment's token |
| TaxJarProvider.Normalize | src/Umbraco.Commerce.SalesTaxProviders.TaxJar/TaxJarSalesTaxProvider.cs:106-122 | a null response, null jurisdictions or null breakdown throws, in that order; otherwise the amount to collect is in the order currency, the jurisdiction map has exactly the keys city, county, state and country with the response's names, and the breakdown has four entries in that order with each level's collectable amount |
| TaxJarProvider.TryCalculate | src/Umbraco.Commerce.SalesTaxProviders.TaxJar/TaxJarSalesTaxProvider.cs:60-126 | the service is called exactly when the request was built, with those credentials and that request; a build fault or service fault is the outcome, otherwise the normalised response |
| TaxJarProvider.ResolveLineContext | src/Umbraco.Commerce.SalesTaxProviders.TaxJar/TaxJarSalesTaxProvider.cs:44-51 | lines are resolved against the order calculation's line map, the store's tax classes as listed, the store default and the resolved tax source |
| TaxJarProvider.Calculate | src/Umbraco.Commerce.SalesTaxProviders.TaxJar/TaxJarSalesTaxProvider.cs:20-133 | every amount is in the order currency; ineligible addresses give zero with no lookup and no call; a non-USD currency gives zero after only the currency lookup; otherwise three lookups and one call exactly when the request builds; every fault is logged once and gives zero |
| TaxJarProperties.FirstWithIdIsUnique | src/Umbraco.Commerce.SalesTaxProviders.TaxJar/TaxJarSalesTaxProvider.cs:47 | the first class with an id is unique, so the store default and each line's class are determined |
| TaxJarProperties.LineItemsOfConcatenation | src/Umbraco.Commerce.SalesTaxProviders.TaxJar/TaxJarSalesTaxProvider.cs:85-102 | items are built line by line: those for `a + b` are those for `a` then those for `b`, and a fault in `a` stops before `b` |
| TaxJarProperties.LineWithoutClassUsesStoreDefault | src/Umbraco.Commerce.SalesTaxProviders.TaxJar/TaxJarSalesTaxProvider.cs:89-97 | a line without a tax-class id gets the store default's code for the tax source, or no code when there is no default |
| TaxJarProperties.LineWithKnownClassUsesThatClass | src/Umbraco.Commerce.SalesTaxProviders.TaxJar/TaxJarSalesTaxProvider.cs:89-97 | a line whose tax-class id some class carries gets the code of the first such class for the tax source |
| TaxJarProperties.ExplicitClassIgnoresStoreDefault | src/Umbraco.Commerce.SalesTaxProviders.TaxJar/TaxJarSalesTaxProvider.cs:89-97 | for a line with a class id, the store default has no influence on its tax code, even when no class has that id |
| TaxJarProperties.NormalizeKeepsTotals | src/Umbraco.Commerce.SalesTaxProviders.TaxJar/TaxJarSalesTaxProvider.cs:106-122 | the result's total equals the sum of its breakdown exactly when the service's amount to collect equals the sum of its four collectable amounts |
| TaxJarProperties.ServiceIrrelevantWhenShortCircuited | src/Umbraco.Commerce.SalesTaxProviders.TaxJar/TaxJarSalesTaxProvider.cs:23-41 | before both checks pass, the answer of the TaxJar service cannot affect the invocation |
| TaxJarProperties.BreakdownLevelsAreJurisdictionKeys | src/Umbraco.Commerce.SalesTaxProviders.TaxJar/TaxJarSalesTaxProvider.cs:108-121 | the breakdown labels and the jurisdiction keys of a result are the same four levels |
| TaxJarProperties.AddressExamples | src/Umbraco.Commerce.SalesTaxProviders.TaxJar/TaxJarSalesTaxProvider.cs:26-31 | "us" and "uS" pass; "  ", " US", "CA", a null country and a blank zip fail |
| TaxJarProperties.QuantityExamples | src/Umbraco.Commerce.SalesTaxProviders.TaxJar/TaxJarSalesTaxProvider.cs:96 | 2.9 casts to 2 and -2.9 to -2; 2147483647.5 and -2147483648.5 still cast; 2147483648 and -2147483649 overflow |
| TaxJarProperties.DomesticRequestScenario | src/Umbraco.Commerce.SalesTaxProviders.TaxJar/TaxJarSalesTaxProvider.cs:62-103 | a one-line order (quantity 2 at 45.00, subtotal 100.00, shipping 10.00) builds the expected request |
| TaxJarProperties.DomesticOrderIsSent | src/Umbraco.Commerce.SalesTaxProviders.TaxJar/TaxJarSalesTaxProvider.cs:26-41 | a one-line domestic USD order between two US addresses with zip codes gets past both checks, and the host answers what the path needs |
| TaxJarProperties.DomesticResponseScenario | src/Umbraco.Commerce.SalesTaxProviders.TaxJar/TaxJarSalesTaxProvider.cs:106-122 | a service answer of 8.50 split 1.00/0.50/6.00/1.00 becomes 8.50 USD with four jurisdictions and a breakdown summing to 8.50 |
| TaxJarProperties.DomesticOrderScenario | src/Umbraco.Commerce.SalesTaxProviders.TaxJar/TaxJarSalesTaxProvider.cs:20-133 | that order makes three lookups and one live call with the expected request, logs nothing and returns the normalised 8.50 result |
| TaxJarProperties.CrossBorderScenario | src/Umbraco.Commerce.SalesTaxProviders.TaxJar/TaxJarSalesTaxProvider.cs:26-34 | shipping to "CA" gives zero with no lookup, no call and nothing logged |
| TaxJarProperties.ForeignCurrencyScenario | src/Umbraco.Commerce.SalesTaxProviders.TaxJar/TaxJarSalesTaxProvider.cs:37-41 | a EUR order between US addresses gives zero after only the currency lookup, with no call |
| TaxJarProperties.ServiceFaultScenario | src/Umbraco.Commerce.SalesTaxProviders.TaxJar/TaxJarSalesTaxProvider.cs:127-132 | a TaxJar fault after the one call gives zero in the order currency and logs the fault |

## Left out

- Text.EqualsOrdinalIgnoreCase: upper-cases only the ASCII letters, while .NET also folds non-ASCII letter pairs. The provider compares only against the ASCII literals "US" and "USD", so the model is exact for ASCII input. A non-ASCII character that .NET's ordinal casing maps onto an ASCII letter would be treated as unequal here.
- The TaxJar HTTP client (`TaxjarApi.TaxForOrderAsync`): a foreign library call. It is a function argument whose answer is a response, a null response or a thrown fault.
- `async`/`await`, `ConfigureAwait` and the cancellation token: asynchrony plumbing of a sequential pipeline.
- The currency, store and tax services: external. Their answers are the maps of `Host`. A failing or missing lookup is a precondition (`HostAnswers`), because it happens outside the `try` and would propagate.
- The construction of the TaxJar client and any argument check it makes: outside the `try` and external. `SelectCredentials` models the token and URL it is given.
- `TaxClassReadOnly.GetTaxCode` internals: external. A tax class carries a table from tax source to code, and a tax source with no entry has no code.
- The text of the log message and the exception object: `Invocation.logged` records which fault was logged.
- The result's default `Jurisdictions` and `Breakdown` on the zero path: these are set by the host's result type. The model leaves them `None`.
- The enumeration order of the jurisdiction dictionary: .NET does not promise one. The model gives its key set and values.
- C# `decimal` precision and range: amounts and quantities are Dafny `real`. No arithmetic is done on amounts, and the quantity cast models the 32-bit range check.
- A null `OrderLineCalculation` value in the host's line map: the host does not store null calculations. A missing entry is modelled, as `MissingLineCalculation`.
- `TaxJarSettings.cs` settings-form attributes: only the three settings fields are modelled (`TaxJarSettings`).
- `wwwroot/lang/en.js`: user-interface strings.
