/** The fixed-price resolver of lib/price-utils.ts. Unlike the currency
    service it consults no exchange rate: Kenya pays the fixed shilling
    price, every other country the dollar price. */
module PriceUtils {
  import opened Decimal
  import opened Constants
  import Currency

  /** `PriceInfo`. */
  datatype PriceInfo = PriceInfo(
    amount: int,
    currency: string,
    symbol: string,
    displayPrice: string,
    amountInSmallestUnit: int)

  /** `getPriceByCountry`: the Kenyan branch is taken only for the exact string "Kenya". */
  function GetPriceByCountry(country: string): (p: PriceInfo)
    ensures p.amountInSmallestUnit == 100 * p.amount
    ensures p.currency in CurrencySymbols && p.symbol == CurrencySymbols[p.currency]
    ensures |p.displayPrice| > |p.symbol| && p.displayPrice[..|p.symbol|] == p.symbol
    ensures p.currency == "KES" <==> country == "Kenya"
  {
    var isKenya := country == "Kenya";
    if isKenya then
      PriceInfo(
        BasePriceKes(),
        "KES",
        CurrencySymbols["KES"],
        CurrencySymbols["KES"] + " " + IntToString(BasePriceKes()),
        BasePriceKes() * 100)
    else
      PriceInfo(
        BasePriceUsd,
        "USD",
        CurrencySymbols["USD"],
        CurrencySymbols["USD"] + IntToString(BasePriceUsd),
        (BasePriceUsd as real * 100.0).Floor)
  }

  /** `formatPrice`: the display string of the resolved price. */
  function FormatPrice(country: string): (s: string)
    ensures s == GetPriceByCountry(country).displayPrice
  {
    var priceInfo := GetPriceByCountry(country);
    priceInfo.displayPrice
  }

  /** Kenya: 99 shillings, shown as "Ksh 99", charged as 9900. */
  lemma KenyaPrice()
    ensures GetPriceByCountry("Kenya") == PriceInfo(99, "KES", "Ksh", "Ksh 99", 9900)
    ensures FormatPrice("Kenya") == "Ksh 99"
  {
  }

  /** Every other string, mapped country or not, in any letter case: one
      dollar, shown as "$1", charged as 100. */
  lemma OtherCountriesPayDollars(country: string)
    requires country != "Kenya"
    ensures GetPriceByCountry(country) == PriceInfo(1, "USD", "$", "$1", 100)
    ensures FormatPrice(country) == "$1"
  {
  }

  /** The two examples of that: a mapped euro country and a case variant. */
  lemma GermanyAndLowerCaseKenyaPayDollars()
    ensures GetPriceByCountry("Germany").currency == "USD"
    ensures GetPriceByCountry("kenya").currency == "USD"
    ensures Currency.GetCurrencyFromCountry("Germany") == "EUR"
  {
    OtherCountriesPayDollars("Germany");
    OtherCountriesPayDollars("kenya");
  }

  /** Among the supported countries, the fixed-price resolver and the
      country-to-currency mapping agree on the currency only for Kenya and
      the United States. */
  lemma AgreesWithCurrencyMapOnlyForKenyaAndUS(country: string)
    requires country in CountryToCurrency
    ensures GetPriceByCountry(country).currency == Currency.GetCurrencyFromCountry(country)
            <==> country == "Kenya" || country == "United States"
  {
    CountryToCurrencyInjective();
    if country != "Kenya" {
      OtherCountriesPayDollars(country);
      assert CountryToCurrency["United States"] == "USD";
    }
  }
}
