# Credit-report portal: pricing, validation and page logic in Dafny

This project models the decision logic of a web portal that sells credit-bureau (CRB)
reports. It covers the following parts.

- **Pricing and currency layer.** This is the exchange-rate cache of
  `services/currency.service.ts`. It holds a 24-hour in-memory snapshot, with a fallback to the
  snapshot persisted in browser storage. The layer also includes:
  - the country-to-currency mapping with its dollar default;
  - the floor-truncating conversion of the one-dollar base price;
  - the symbol-and-spacing price formatter;
  - the "times 100" smallest-unit conversion;
  - the separate fixed-price resolver of `lib/price-utils.ts`, where Kenya pays 99 shillings and
    everyone else one dollar;
  - the constants and reference tables of `lib/constants.ts`.
- **Form validators.** These are the register, login, purpose and profile schemas of
  `lib/validations.ts` and the contact-form schema. Each is modelled as the list of issues it
  reports, so a form is accepted exactly when that list is empty. The email-format check is a
  parameter `isEmail`.
- **Page and store logic:**
  - the authentication store and its listener;
  - the protected-route guard;
  - the offer banner's call-to-action route and its countdown;
  - the payment-verification status machine;
  - the purpose checkbox list and the purpose labels sent with a payment;
  - the payment request and what the payment page does with the answer;
  - the PDF pagination loop, the score-colour lookups and the render gate of the report page;
  - the user record built at registration;
  - the avatar initials, review strip, star count and sticky call to action of the landing page.

State that the code changes in place is modelled as a class with those fields:
- the rate cache (`Currency.RateCache`);
- the auth store;
- the contact, verification, payment, report and landing pages.

Each such method is tied by its `ensures` to a pure function of the old state, for example
`Currency.Fetch` and `Currency.Initialize`. The lemmas then state the promises about those
functions.

Network and storage results enter as explicit outcomes:
- `FetchOutcome` is the answer of the rate service.
- `Stored` is the text in localStorage.
- `VerifyOutcome` and `PaymentOutcome` are the answers of the payment backend.
- The `fetched` result of `ReportPage.OnSnapshot` is the report download: the report, nothing for
  a missing document, or an error.

The milliseconds that pass while a request is awaited are a parameter too.

Four behaviours of the code that are easy to misread:
- `initializeExchangeRates` adopts the persisted snapshot into memory only when it is younger
  than 24 hours (`services/currency.service.ts:119`). In the fallback path, however,
  `fetchExchangeRates` loads the persisted snapshot whatever its age.
- Text in storage that does not parse is not treated as a cache miss by `fetchExchangeRates`.
  The `JSON.parse` error escapes from the `catch` block, so the call rejects with that parse
  error (`Currency.FailureWithUnparsableStored`).
- `getPriceInUserCurrency` has no dollar fallback. A rejected rate fetch rejects the price
  (`Currency.PriceFromFetch`).
- Only `getPriceByCountry` has the Kenyan fixed price. The converted price of the currency
  service uses live rates for Kenya like for every other country.

## Model

| member | source | states |
|---|---|---|
| Constants.BasePriceKes | lib/constants.ts:1-3 | The Kenyan price is the floor of the base price (1) times the fixed rate (99), so it is exactly 99. |
| Constants.EveryCountryCurrencyHasSymbol | lib/constants.ts:7-44 | Every currency that a supported country maps to has an entry in the symbol table. |
| Constants.CountryToCurrencyInjective | lib/constants.ts:30-44 | No two supported countries share a currency. |
| Constants.SymbolTableCollisions | lib/constants.ts:7-27 | The symbol table is not injective: JPY and CNY both show the yen sign. UGX is shown by its own code. |
| Constants.SymbolsNonEmpty | lib/constants.ts:7-27 | No symbol is empty, so the `or`-fallback of a symbol lookup fires only for unlisted codes. |
| Constants.OfferedCountriesAreSupported | app/register/page.tsx:20-34 | The country dropdown lists exactly the keys of the country-to-currency table, each once. |
| Decimal.IntToString | services/currency.service.ts:86-89 | The rendering of an integral amount is non-empty. It starts with '-' exactly for negative numbers and is all digits otherwise. |
| Decimal.NatToString | services/currency.service.ts:86-89 | The decimal rendering of a natural number is a non-empty digit string. |
| Decimal.ValueOfNatToString | services/currency.service.ts:86-89 | Reading the digits back gives the number, so the rendering loses nothing. |
| Decimal.NatToStringInjective | services/currency.service.ts:86-89 | Two numbers with the same rendering are equal. |
| Decimal.NatToStringNoLeadingZero | services/currency.service.ts:86-89 | The rendering starts with '0' exactly when the number is 0. |
| Decimal.ValueLeadingZero | components/LimitedOfferBanner.tsx:96-100 | Padding a digit string with a '0' keeps its value. |
| Currency.ErrorOf | services/currency.service.ts:28-45 | A failed request rejects with the network error, the JSON error of the body, the TypeError of reading `result` on a `null` body, or "Failed to fetch exchange rates". The last comes exactly from a parsed non-null body and the TypeError exactly from a `null` body. It is never a storage parse error. |
| Currency.Fallback | services/currency.service.ts:46-56 | The catch block changes neither the persisted entry nor the clock. |
| Currency.Fetch | services/currency.service.ts:23-58 | Returned rates are the in-memory snapshot's afterwards, and a failure leaves that snapshot unchanged. The clock moves only when a request is made. A persisted snapshot is never lost. |
| Currency.Adopt | services/currency.service.ts:114-125 | The persisted snapshot replaces the in-memory one only in a browser and only when it parses and is fresh. Storage and clock are untouched. |
| Currency.Initialize | services/currency.service.ts:113-128 | Outside a browser nothing changes. When the adopted snapshot is fresh the warm-up refresh changes nothing. The persisted entry is never dropped. |
| Currency.FreshSnapshotNeedsNoFetch | services/currency.service.ts:24-26 | A fresh in-memory snapshot is returned as it is, whatever the network would answer. |
| Currency.FreshnessBoundary | services/currency.service.ts:19-24 | A snapshot is fresh at age 86,399,999 ms and stale at exactly 86,400,000 ms. |
| Currency.SuccessReplacesSnapshot | services/currency.service.ts:32-42 | A successful answer becomes the snapshot, stamped with the time of the answer. It is persisted in a browser and its rates are returned. |
| Currency.FailureFallsBackToStored | services/currency.service.ts:45-53 | On failure the persisted snapshot, whatever its age, is loaded into memory and its rates are returned. |
| Currency.FailureWithoutStoredPropagates | services/currency.service.ts:45-56 | With nothing persisted, or outside a browser, the original error propagates and only the clock changes. |
| Currency.FailureWithUnparsableStored | services/currency.service.ts:48-50 | Unparsable stored text makes the call reject with the parse error. |
| Currency.RefreshThenHit | services/currency.service.ts:24-42 | After a successful refresh, a call less than 24 hours later is served the same rates. |
| Currency.InitializeWithFreshStored | services/currency.service.ts:113-128 | A fresh persisted snapshot is adopted at start-up, and the warm-up refresh is then a cache hit. |
| Currency.InitializeWithStaleStored | services/currency.service.ts:113-128 | A stale persisted snapshot is not adopted. If the warm-up request then fails, the fallback loads it after all. |
| Currency.GetCurrencyFromCountry | services/currency.service.ts:60-62 | A mapped country gets its currency and any other string gets "USD". The result always has a symbol. |
| Currency.RemoveDecimals | services/currency.service.ts:64-66 | The result is the floor: r <= amount < r + 1. |
| Currency.RateFor | services/currency.service.ts:72 | The rate is the table's when that is present and non-zero, otherwise 1. It is never 0. |
| Currency.LocalAmount | services/currency.service.ts:68-75 | The converted amount r satisfies r <= base price * rate < r + 1. |
| Currency.LocalAmountBounds | services/currency.service.ts:68-75 | A rate of at least 1 gives a positive amount. A rate in (0, 1) gives 0. A missing rate gives the base price. |
| Currency.SubUnitRateRoundsToZero | services/currency.service.ts:68-75 | A euro rate of 0.92 quotes 0 euros. |
| Currency.GetCurrencySymbol | services/currency.service.ts:77-79 | The symbol is the table's symbol for listed codes and the code itself otherwise. |
| Currency.FormatCurrency | services/currency.service.ts:81-90 | The formatted price starts with the currency's symbol and has something after it. |
| Currency.FormatCurrencyReadsBack | services/currency.service.ts:81-90 | The formatted price is the symbol, then no space for USD/GBP/EUR or exactly one space otherwise, then the floor of the amount. For a non-negative amount that is digits whose value is the floor. For a negative amount it is '-' followed by digits whose value is the magnitude of the floor. |
| Currency.FormatNegativeAmount | services/currency.service.ts:81-90 | -1.5 dollars is formatted "$-2", because the floor rounds down. |
| Currency.FormatCurrencyIgnoresFraction | services/currency.service.ts:81-90 | Formatting the floor of an amount equals formatting the amount. |
| Currency.FormatCurrencyExamples | services/currency.service.ts:81-90 | 1 USD is "$1" and 99.7 KES is "Ksh 99". |
| Currency.FormatUnlistedCurrency | services/currency.service.ts:77-90 | An unlisted code XYZ gives "XYZ 5". |
| Currency.ConvertToSmallestUnit | services/currency.service.ts:92-95 | The smallest unit is a multiple of 100 within 100 below 100 * amount. |
| Currency.SmallestUnitIgnoresCurrency | services/currency.service.ts:92-95 | The currency code plays no part, so KRW is also scaled by 100. |
| Currency.PriceFromRates | services/currency.service.ts:97-111 | The amount is the converted amount, its smallest unit is 100 times it, and its text is the formatted amount. |
| Currency.PriceFromFetch | services/currency.service.ts:97-111 | A rejected rate fetch rejects the price with the same error. There is no dollar fallback. |
| Currency.RateCache.constructor | services/currency.service.ts:21 | The cache starts with nothing in memory, whatever storage holds. |
| Currency.RateCache.Tick | services/currency.service.ts:24 | Only the clock advances. |
| Currency.RateCache.FetchExchangeRates | services/currency.service.ts:23-58 | The returned rates and the new cache state are exactly `Fetch` of the old state. |
| Currency.RateCache.InitializeExchangeRates | services/currency.service.ts:113-128 | The new cache state is exactly `Initialize` of the old state. |
| Currency.RateCache.ConvertUSDToLocalCurrency | services/currency.service.ts:68-75 | The cache moves as `Fetch` says. The result is the converted amount of the fetched rates, or the fetch's error. |
| Currency.RateCache.GetPriceInUserCurrency | services/currency.service.ts:97-111 | The cache moves as `Fetch` says, and the result is `PriceFromFetch` of the fetch's result. |
| PriceUtils.GetPriceByCountry | lib/price-utils.ts:11-31 | In both branches the smallest unit is 100 times the amount. The symbol is the table's symbol of the currency and starts the display price. The currency is KES exactly for "Kenya". |
| PriceUtils.FormatPrice | lib/price-utils.ts:33-36 | The result is the display price of the resolved price. |
| PriceUtils.KenyaPrice | lib/price-utils.ts:12-22 | "Kenya" gives 99, KES, "Ksh", "Ksh 99" and 9900. |
| PriceUtils.OtherCountriesPayDollars | lib/price-utils.ts:24-30 | Every other string gives 1, USD, "$", "$1" and 100. |
| PriceUtils.GermanyAndLowerCaseKenyaPayDollars | lib/price-utils.ts:12 | "Germany", though mapped to EUR, and "kenya" both pay in dollars. |
| PriceUtils.AgreesWithCurrencyMapOnlyForKenyaAndUS | lib/price-utils.ts:11-31 | Among supported countries, the resolver's currency equals the country's mapped currency exactly for Kenya and the United States. |
| Validations.Check | lib/validations.ts:4-10 | A field check reports nothing when it passes and its own path and message otherwise. |
| Validations.MinLengthMonotone | lib/validations.ts:4-10 | A value that passes a minimum length still passes when extended. |
| Validations.PersonIssues | lib/validations.ts:25-30 | The shared person checks pass exactly when both names have at least 2 characters, the id number at least 5 and the country at least 2. |
| Validations.RegisterIssues | lib/validations.ts:3-14 | The register form is accepted exactly when the names, email, password (at least 8), id number and country pass and the two passwords are equal. |
| Validations.PasswordMismatchReported | lib/validations.ts:11-14 | The passwords differ exactly when the last issue is "Passwords don't match" on `confirmPassword`. No other message appears on that path. |
| Validations.LoginIssues | lib/validations.ts:16-19 | The login form is accepted exactly when the email is valid and the password is non-empty. |
| Validations.PurposeIssues | lib/validations.ts:21-23 | The purpose form is accepted exactly when at least one purpose is chosen. |
| Validations.ProfileIssues | lib/validations.ts:25-30 | The profile form is accepted exactly when the four person checks pass. |
| Validations.ProfileMatchesRegister | lib/validations.ts:3-30 | The profile schema is the register schema's person checks and nothing more. It agrees with the register schema whenever email and passwords pass. |
| Contact.ContactIssues | app/contact/page.tsx:17-22 | The contact form is accepted exactly when all four checks pass. Each failing check reports its own field and message. |
| Contact.ContactPage.constructor | app/contact/page.tsx:27-37 | The page starts with four empty fields and is not loading. |
| Contact.ContactPage.Edit | app/contact/page.tsx:29-37 | Typing replaces the values and leaves loading alone. |
| Contact.ContactPage.Submit | app/contact/page.tsx:39-51 | A form is sent exactly when the schema accepts it. It is then reset to empty fields with loading false. A rejected form is left as it is. |
| LimitedOfferBanner.CtaRoute | components/LimitedOfferBanner.tsx:17-23 | The route is /register while loading or without a user. It is /purpose for a user without purposes, /payment for one with purposes who has not paid, and /dashboard otherwise. Each case holds in both directions. |
| LimitedOfferBanner.CtaRouteCases | components/LimitedOfferBanner.tsx:17-23 | The route is one of four, and purposes are asked for before payment. |
| LimitedOfferBanner.TruncDiv | components/LimitedOfferBanner.tsx:35-36 | The quotient that JavaScript's `%` pairs with is rounded toward zero: it is Dafny's `/` for a non-negative dividend and is never positive for a negative one. |
| LimitedOfferBanner.JsRem | components/LimitedOfferBanner.tsx:35-36 | JavaScript's `%` takes the dividend's sign. It is Dafny's `%` for a non-negative dividend and lies in (-b, 0] for a negative one. In both cases the dividend is the truncated quotient times b plus the remainder, which fixes the value. |
| LimitedOfferBanner.JsRemNegative | components/LimitedOfferBanner.tsx:35-36 | -5 % 3 is -2 in JavaScript, where the Euclidean remainder is 1. |
| LimitedOfferBanner.FloorDiv | components/LimitedOfferBanner.tsx:34-36 | `Math.floor(a / b)` is the q with q*b <= a < q*b + b. |
| LimitedOfferBanner.CalculateTimeLeft | components/LimitedOfferBanner.tsx:28-39 | For a non-negative difference, minutes and seconds lie in [0, 60) and h:m:s in milliseconds is within one second below the difference. |
| LimitedOfferBanner.CountdownWithinADay | components/LimitedOfferBanner.tsx:28-39 | A countdown to a midnight at most a day away shows at most 24 hours. |
| LimitedOfferBanner.PadStart2 | components/LimitedOfferBanner.tsx:96-100 | `padStart(2, '0')` has length max(2, n), ends with the input and is '0' before it. |
| LimitedOfferBanner.Field | components/LimitedOfferBanner.tsx:96-100 | A countdown field is always at least two characters long. |
| LimitedOfferBanner.FieldReadsBack | components/LimitedOfferBanner.tsx:96-100 | A field of n is n's digits padded to at least two, and it reads back as n. |
| LimitedOfferBanner.FieldTwoDigits | components/LimitedOfferBanner.tsx:98-100 | Numbers below 100, so minutes and seconds, are shown with exactly two digits. |
| AuthStore.AuthStore.constructor | store/useAuthStore.ts:7-8 | The store starts with no user, loading. |
| AuthStore.AuthStore.SetUser | store/useAuthStore.ts:9 | The user is set and loading becomes false. |
| AuthStore.AuthStore.SetLoading | store/useAuthStore.ts:10 | Only the loading flag changes. |
| AuthStore.AuthStore.Logout | store/useAuthStore.ts:11-14 | After a successful sign-out the user is cleared. A failed sign-out changes nothing. Loading is never touched. |
| AuthStore.AuthStore.OnAuthChange | hooks/useAuthListener.ts:11-14 | After an auth callback the user is the delivered value and loading is false. |
| ProtectedRoute.Redirect | components/auth/protected-route.tsx:12-16 | The guard redirects, to /login, exactly when loading is over and there is no user. |
| ProtectedRoute.Rendered | components/auth/protected-route.tsx:18-31 | It renders the skeleton exactly while loading, nothing exactly without a user, and the children exactly with one. |
| ProtectedRoute.RedirectOnlyWhenNothingRendered | components/auth/protected-route.tsx:12-31 | A redirect happens exactly when nothing is rendered. The children never coexist with a redirect, and loading never redirects. |
| VerifyPage.EffectRequest | app/verify/page.tsx:20-31 | A verification call is made exactly when a reference and a user are present, with that reference and the user's uid. |
| VerifyPage.AfterEffect | app/verify/page.tsx:19-44 | A missing reference fails regardless of the user. A reference without a user leaves the status alone. Once a call is made, the status becomes success exactly on a truthy answer. |
| VerifyPage.NextLink | app/verify/page.tsx:89-111 | Success offers /dashboard, failure offers /payment, and loading offers nothing. |
| VerifyPage.VerifyPage.constructor | app/verify/page.tsx:17 | The status starts as loading. |
| VerifyPage.VerifyPage.RunEffect | app/verify/page.tsx:19-44 | The request made and the new status are those of `EffectRequest` and `AfterEffect`. |
| VerifyPage.SettledAfterUserKnown | app/verify/page.tsx:19-44 | Once the user is known, any run of the effect leaves the status success or failed. |
| PurposePage.PurposeIdsDistinct | app/purpose/page.tsx:21-28 | The six purpose ids are distinct. |
| PurposePage.InitialSelectionRejected | app/purpose/page.tsx:35-40 | The initial empty selection fails the purpose schema. |
| PurposePage.Without | app/purpose/page.tsx:105-109 | The filter removes every occurrence of the id and keeps every other element as often as before. |
| PurposePage.WithoutConcat | app/purpose/page.tsx:105-109 | The filter works element by element, so filtering a concatenation filters each part and the order of what remains is kept. |
| PurposePage.WithoutMembership | app/purpose/page.tsx:105-109 | After an uncheck the id is absent, and every other id is present exactly when it was before. |
| PurposePage.Toggle | app/purpose/page.tsx:102-110 | Checking appends the id after the unchanged list. Unchecking removes all its occurrences. |
| PurposePage.UncheckThenCheck | app/purpose/page.tsx:102-110 | Unchecking then checking leaves the id present exactly once. |
| PurposePage.Click | app/purpose/page.tsx:100-110 | A click on a selected purpose removes it entirely. A click on an unselected one appends it once. |
| PurposePage.WithoutSubsequenceDistinct | app/purpose/page.tsx:105-109 | Filtering a duplicate-free list leaves it duplicate-free. |
| PurposePage.ClickKeepsDistinct | app/purpose/page.tsx:100-110 | Clicks keep the selection duplicate-free and flip the purpose's membership. |
| PaymentPage.LabelOf | app/payment/page.tsx:16-23 | A known id gets its table label and an unknown id passes through unchanged. |
| PaymentPage.Labels | app/payment/page.tsx:38-40 | The label list has the same length as the id list and labels it position by position. |
| PaymentPage.PurposeLabelsArray | app/payment/page.tsx:36-40 | Missing purposes count as the empty list. |
| PaymentPage.EveryOfferedPurposeLabelled | app/payment/page.tsx:16-23 | Every offered purpose has a label, though "employment" is sent as "Employment Verification", not as its checkbox title. |
| PaymentPage.UnknownIdPassesThrough | app/payment/page.tsx:39 | ["employment", "gardening"] is labelled ["Employment Verification", "gardening"]. |
| PaymentPage.AmountInSmallestUnit | services/payment.service.ts:10 | The amount is the floor of 100 times the amount given. |
| PaymentPage.BuildRequest | app/payment/page.tsx:42-48 | The request carries the user's uid and email, 100 cents in USD whatever the country, and the purpose labels. |
| PaymentPage.ErrorMessage | app/payment/page.tsx:58 | The error text is the error's message when non-empty, otherwise the default. It is never empty. |
| PaymentPage.SentRequest | app/payment/page.tsx:29-48 | A payment request is sent exactly when there is a user and the user document was read. |
| PaymentPage.PaymentResult | app/payment/page.tsx:29-61 | There is no action without a user, and a redirect happens exactly to a non-empty `paymentUrl`. Any other ending with a user shows a non-empty error. |
| PaymentPage.PaymentPage.constructor | app/payment/page.tsx:27 | The page starts not loading. |
| PaymentPage.PaymentPage.HandlePayment | app/payment/page.tsx:29-61 | The request and the action are those of `SentRequest` and `PaymentResult`. With a user, loading ends false. |
| ReportPage.ImgHeight | app/report/page.tsx:89-91 | The image height keeps the canvas's aspect ratio at a width of 210 mm. |
| ReportPage.PageCount | app/report/page.tsx:92-103 | For a non-negative height h the page count n satisfies (n-1)*297 <= h < n*297. |
| ReportPage.Paginate | app/report/page.tsx:92-103 | The loop draws on `PageCount` pages, and the k-th page draws the image at offset -297*k. |
| ReportPage.ExactMultipleGetsExtraPage | app/report/page.tsx:96-98 | An image exactly k pages tall gets k + 1 pages, the last one blank. |
| ReportPage.PageCountMonotone | app/report/page.tsx:92-103 | A taller image never gets fewer pages. |
| ReportPage.ScoreColor | app/report/page.tsx:140-148 | green, yellow, orange and red map to their text class, and anything else to gray. |
| ReportPage.ScoreBgColor | app/report/page.tsx:150-158 | green, yellow, orange and red map to their background class, and anything else to gray. |
| ReportPage.ScoreBadgeVariant | app/report/page.tsx:160-163 | The variant is "default" exactly for green and "secondary" otherwise. |
| ReportPage.ShortReportId | app/report/page.tsx:210 | The shown id is the first min(8, length) characters. |
| ReportPage.Render | app/report/page.tsx:122-138 | The skeleton shows exactly while loading. The report shows exactly for a paid user whose report was loaded. |
| ReportPage.ReportPage.constructor | app/report/page.tsx:24-26 | The page starts with no user data, no report, loading. |
| ReportPage.ReportPage.OnSnapshot | app/report/page.tsx:34-58 | An unpaid user is redirected to /dashboard and loading is left as it was. Otherwise loading ends. When the document names a report, with a present and non-empty `crbReportId`, and the read succeeds, the report becomes what was read. That is `None` when the report document does not exist (`fetchCRBReport` resolves to null), so a report already shown is cleared. A failed read or no named report keeps the report. |
| ReportPage.UnpaidNeverShown | app/report/page.tsx:39-42 | An unpaid user's report is never shown. |
| AuthService.NewUserRecord | services/auth.service.ts:19-29 | The new record copies the form's email, names, id number and country and has the document's uid. Its currency is the country's currency and it is unpaid, with no purposes or report. |
| AuthService.Register | services/auth.service.ts:31 | Registering adds exactly the new record under its uid and leaves other users alone. |
| AuthService.GetUserData | services/auth.service.ts:40-46 | The result is null exactly when the document does not exist, and the stored data otherwise. |
| AuthService.AuthChangeValue | services/auth.service.ts:48-58 | Signed out, the callback gets null. Signed in, it gets `getUserData` of the account. |
| AuthService.RegisteredUserReadsBack | services/auth.service.ts:19-33 | A registered user reads back as its record, keyed by its own uid. |
| AuthService.NewUserFlow | services/auth.service.ts:28 | A new, loaded user is sent to /purpose by the banner and is shown the protected pages. |
| HomePage.Split | app/page.tsx:273 | `split` yields at least one piece, and no piece contains the separator. |
| HomePage.JoinSplit | app/page.tsx:273 | Joining the pieces of a split gives the string back. |
| HomePage.SplitWord | app/page.tsx:273 | A word without the separator is one piece. |
| HomePage.SplitAfterWord | app/page.tsx:273 | A word followed by the separator splits off as the first piece. |
| HomePage.SplitTwoWords | app/page.tsx:273 | "a b" splits into [a, b]. |
| HomePage.NonEmpty | app/page.tsx:273 | Dropping the empty pieces keeps every non-empty piece exactly as often as before and no empty one. |
| HomePage.NonEmptySingle | app/page.tsx:273 | A single piece is kept exactly when it is not empty. |
| HomePage.NonEmptyKeepsOrder | app/page.tsx:273 | Dropping the empty pieces keeps the order: a piece between two runs stays between what is kept of them, unless it is empty. |
| HomePage.FirstChars | app/page.tsx:273 | The result has one character per non-empty piece, in order, each that piece's first character. |
| HomePage.Initials | app/page.tsx:273 | The initials have one character per non-empty space-separated segment, in order. Empty segments contribute nothing. |
| HomePage.InitialsOfTwoWords | app/page.tsx:273 | Two words give their two first letters. |
| HomePage.InitialsOfPeterKamau | app/page.tsx:252-273 | "Peter Kamau" gives "PK". |
| HomePage.SplitDoubleSpace | app/page.tsx:273 | Two spaces between two words make an empty piece between them. |
| HomePage.NonEmptyDoubleSpace | app/page.tsx:273 | The filter drops the empty piece that a double space makes, leaving the two words. |
| HomePage.FirstCharsSkipEmpty | app/page.tsx:273 | An empty piece between two non-empty pieces adds no character. Only the two first characters remain. |
| HomePage.InitialsSkipEmptyPiece | app/page.tsx:273 | Two words with two spaces between them still give just their two first letters. |
| HomePage.InitialsSkipEmptyPieces | app/page.tsx:273 | "Ann  Lee", with two spaces, gives "AL". |
| HomePage.Repeated | app/page.tsx:251 | Repeating n times gives n times as many items, starting with the items themselves. |
| HomePage.RenderedReviews | app/page.tsx:251-267 | The strip is the fifteen reviews twice over, thirty cards. |
| HomePage.Stars | app/page.tsx:280 | A card shows `rating` stars, or none for a negative rating. |
| HomePage.EveryCardFiveStars | app/page.tsx:252-266 | Every review card shows five stars. |
| HomePage.HomePage.constructor | app/page.tsx:15 | The sticky call to action starts hidden. |
| HomePage.HomePage.HandleScroll | app/page.tsx:18-20 | The sticky call to action is shown exactly when the scroll position is past 600. |

## Left out

- The HTTP request to the rate service, `response.json()` and localStorage are not modelled as I/O.
  Their results are the `FetchOutcome` and `Stored` values, and the time a request takes is a
  parameter.
- A `localStorage.setItem` that throws, for example on a full quota, is not modelled. In the source
  it would land in the `catch` block after the in-memory snapshot has already been replaced.
- Persisted JSON that parses to something other than a snapshot (`null`, a number, a snapshot
  without `rates`) is not modelled. Stored text is either a snapshot or unparsable.
- A response body that parses to a number, string or array is modelled as a `Body` whose
  `result` is not "success", since reading its `result` gives `undefined`.
- Lookups with inherited JavaScript property names such as "toString" are not modelled. The tables
  are modelled as maps that hold only their own entries.
- NaN and infinite rates are not modelled. Rates and heights are exact reals, with no
  floating-point rounding.
- The refresh started by `initializeExchangeRates` is modelled as completing before the next call.
  Concurrent refreshes and their last-writer-wins interleavings are not modelled.
- Decimal.IntToString: does not model JavaScript's exponent notation for magnitudes of 10^21 and
  above.
- HomePage.Initials: characters are Unicode scalar values, not UTF-16 code units. A name starting
  with a character outside the Basic Multilingual Plane would show half a surrogate pair in the
  source. `slice(0, 8)` (ReportPage.ShortReportId) and `min` lengths (Validations.MinLength) are
  counted the same way.
- Validations: Zod's email regular expression is the parameter `isEmail`. The issue lists model
  which checks fail and with which message, not Zod's issue objects.
- ReportPage.ImgHeight: requires a canvas width above zero. With a width of 0 and a positive
  height the source computes an infinite height and its loop never ends. A 0 by 0 canvas gives
  NaN, which fails `heightLeft >= 0`, so the source draws one page.
- The PDF and canvas work is not modelled: html2canvas, `toDataURL`, jsPDF's `addImage`, `addPage`
  and `save`. Only the pagination arithmetic is modelled.
- Timers and listeners are not modelled: `setInterval`, the scroll listener and the `mounted` flag.
  The countdown starts from a given millisecond difference. `Date.setHours(24)` and local time are
  left out.
- `toFixed(2)` of the banner's offer price and `toLocaleDateString` on the report page are not
  modelled, since they are float or locale formatting.
- Firebase authentication and Firestore are not modelled: `createUserWithEmailAndPassword`, `setDoc`,
  `getDoc`, `updateDoc`, `onSnapshot` and `signOut`. The users collection is a map, and their
  results are outcome parameters.
- The purpose page's submit (`updateDoc` and navigation) is not modelled, since it is I/O. Its rule
  is `Validations.PurposeIssues`.
- The report page's subscription lifecycle is not modelled. This covers the early return without
  an auth user and the unsubscribe.
- Contact.ContactPage.Submit, PaymentPage.PaymentPage.HandlePayment, VerifyPage.VerifyPage.RunEffect
  and ReportPage.ReportPage.OnSnapshot: each awaited call is one step in the model. The intermediate
  state while the handler awaits, such as `loading = true`, is not observable. Two overlapping
  runs whose calls resolve in either order are not modelled either. The model covers only the
  state before and after one run.
- Toasts are not modelled.
- The review texts are not modelled, since no logic reads them.
- Markup-only pages are not modelled: terms, privacy, not-found, layout, header, footer and
  dashboard. Neither are the login, register and profile pages beyond their schemas, nor the
  network clients of `services/payment.service.ts` and `services/report.service.ts` beyond the
  amount conversion and the three outcomes of a report read.
