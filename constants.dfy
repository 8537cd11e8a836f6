/** The pricing constants and reference tables of lib/constants.ts. */
module Constants {

  /** The base price, in US dollars. */
  const BasePriceUsd: int := 1

  /** The fixed dollar-to-shilling rate used for the Kenyan price. */
  const UsdToKesRate: int := 99

  /** The Kenyan price: the base price times the fixed rate, rounded down. */
  function BasePriceKes(): (k: int)
    ensures k as real <= (BasePriceUsd * UsdToKesRate) as real < k as real + 1.0
    ensures k == 99
  {
    ((BasePriceUsd * UsdToKesRate) as real).Floor
  }

  /** Display symbol of each listed currency (ISO 4217 alphabetic code). */
  const CurrencySymbols: map<string, string> := map[
    "USD" := "$",
    "KES" := "Ksh",
    "TZS" := "Tsh",
    "UGX" := "UGX",
    "EUR" := "\U{20AC}",
    "GBP" := "\U{00A3}",
    "JPY" := "\U{00A5}",
    "CNY" := "\U{00A5}",
    "INR" := "\U{20B9}",
    "AUD" := "A$",
    "CAD" := "C$",
    "SGD" := "S$",
    "ZAR" := "R",
    "NGN" := "\U{20A6}",
    "GHS" := "GH\U{20B5}",
    "AED" := "\U{062F}.\U{0625}",
    "SAR" := "SR",
    "BRL" := "R$",
    "MXN" := "MX$",
    "KRW" := "\U{20A9}"
  ]

  /** The currency of each country the application supports. */
  const CountryToCurrency: map<string, string> := map[
    "United States" := "USD",
    "United Kingdom" := "GBP",
    "Canada" := "CAD",
    "Germany" := "EUR",
    "Australia" := "AUD",
    "Singapore" := "SGD",
    "South Korea" := "KRW",
    "India" := "INR",
    "Brazil" := "BRL",
    "South Africa" := "ZAR",
    "Kenya" := "KES",
    "United Arab Emirates (UAE)" := "AED",
    "Mexico" := "MXN"
  ]

  /** The country dropdown of the registration and profile forms. */
  const OfferedCountries: seq<string> := [
    "United States",
    "United Kingdom",
    "Canada",
    "Germany",
    "Australia",
    "Singapore",
    "South Korea",
    "India",
    "Brazil",
    "South Africa",
    "Kenya",
    "United Arab Emirates (UAE)",
    "Mexico"
  ]

  /** Every currency a supported country maps to has a display symbol. */
  lemma EveryCountryCurrencyHasSymbol()
    ensures forall c :: c in CountryToCurrency ==> CountryToCurrency[c] in CurrencySymbols
  {
  }

  /** No two supported countries share a currency. */
  lemma CountryToCurrencyInjective()
    ensures forall a, b :: a in CountryToCurrency && b in CountryToCurrency && a != b ==>
              CountryToCurrency[a] != CountryToCurrency[b]
  {
  }

  /** The symbol table is not injective: yen and yuan share a sign; the
      Ugandan shilling is shown by its code. */
  lemma SymbolTableCollisions()
    ensures CurrencySymbols["JPY"] == CurrencySymbols["CNY"] == "\U{00A5}"
    ensures CurrencySymbols["UGX"] == "UGX"
  {
  }

  /** No symbol is empty, so a `||` fallback on a lookup fires only for
      codes missing from the table. */
  lemma SymbolsNonEmpty()
    ensures forall c :: c in CurrencySymbols ==> CurrencySymbols[c] != ""
  {
  }

  /** The countries offered in the forms are exactly the supported ones,
      each offered once. */
  lemma OfferedCountriesAreSupported()
    ensures forall i :: 0 <= i < |OfferedCountries| ==> OfferedCountries[i] in CountryToCurrency
    ensures forall c :: c in CountryToCurrency ==> c in OfferedCountries
    ensures forall i, j :: 0 <= i < j < |OfferedCountries| ==> OfferedCountries[i] != OfferedCountries[j]
  {
  }
}
