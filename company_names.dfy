/** The company names of services/stockService.js (`getCompanyName`): a
    fixed ticker table with a "<ticker> Corp." fallback. */
module CompanyNames {

  /** The fixed ticker-to-name table of `getCompanyName`. */
  const KnownTickers: map<string, string> := map[
    "AAPL" := "Apple Inc.",
    "TSLA" := "Tesla Inc.",
    "MSFT" := "Microsoft Corp.",
    "AMZN" := "Amazon.com Inc.",
    "GOOGL" := "Alphabet Inc.",
    "META" := "Meta Platforms Inc.",
    "NFLX" := "Netflix Inc.",
    "NVDA" := "NVIDIA Corp.",
    "BRK.A" := "Berkshire Hathaway",
    "BRK.B" := "Berkshire Hathaway",
    "UNH" := "UnitedHealth Group",
    "JNJ" := "Johnson & Johnson",
    "JPM" := "JPMorgan Chase",
    "V" := "Visa Inc.",
    "PG" := "Procter & Gamble",
    "HD" := "Home Depot",
    "MA" := "Mastercard Inc.",
    "BAC" := "Bank of America",
    "ABBV" := "AbbVie Inc.",
    "PFE" := "Pfizer Inc.",
    "KO" := "Coca-Cola",
    "AVGO" := "Broadcom Inc.",
    "PEP" := "PepsiCo Inc.",
    "TMO" := "Thermo Fisher",
    "COST" := "Costco Wholesale",
    "DIS" := "Walt Disney",
    "ABT" := "Abbott Laboratories",
    "ACN" := "Accenture",
    "VZ" := "Verizon",
    "ADBE" := "Adobe Inc.",
    "DHR" := "Danaher Corp.",
    "WMT" := "Walmart Inc.",
    "TXN" := "Texas Instruments",
    "NEE" := "NextEra Energy",
    "BMY" := "Bristol Myers",
    "T" := "AT&T Inc.",
    "PM" := "Philip Morris",
    "RTX" := "Raytheon Tech.",
    "LOW" := "Lowe's Companies",
    "ORCL" := "Oracle Corp.",
    "QCOM" := "Qualcomm Inc."
  ]

  const FallbackSuffix := " Corp."

  /** Names every plain JavaScript object inherits from `Object.prototype`
      (ECMAScript 2024, sections 20.1.3 and B.2.2). Reading any of them from
      an object literal gives a truthy function or object. */
  const ObjectPrototypeKeys: set<string> := {
    "constructor", "hasOwnProperty", "isPrototypeOf", "propertyIsEnumerable",
    "toLocaleString", "toString", "valueOf", "__proto__",
    "__defineGetter__", "__defineSetter__", "__lookupGetter__", "__lookupSetter__"
  }

  /** What `knownTickers[key] || `${key} Corp.`` evaluates to: a string, or a
      member inherited from `Object.prototype`. */
  datatype NameValue = NameText(s: string) | Inherited(key: string)

  /** `getCompanyName` as written: the table is an object literal, so a key
      that names an `Object.prototype` member finds that member. */
  function CompanyNameAsWritten(key: string): (v: NameValue)
    ensures v.Inherited? <==> key !in KnownTickers && key in ObjectPrototypeKeys
    ensures v.NameText? ==> v.s == CompanyName(key)
  {
    if key in KnownTickers then NameText(KnownTickers[key])
    else if key in ObjectPrototypeKeys then Inherited(key)
    else NameText(key + FallbackSuffix)
  }

  /** `getCompanyName` as intended: the table's own entry, else the ticker
      followed by " Corp.". The rest of the model uses this one. */
  function CompanyName(key: string): (name: string)
    ensures key in KnownTickers ==> name == KnownTickers[key]
    ensures key !in KnownTickers ==>
      && |name| == |key| + |FallbackSuffix|
      && name[..|key|] == key
      && name[|key|..] == FallbackSuffix
  {
    if key in KnownTickers then KnownTickers[key] else key + FallbackSuffix
  }

  /** The ticker "toString" is named by an inherited function, not by
      "toString Corp.". */
  lemma InheritedNameCounterexample()
    ensures CompanyNameAsWritten("toString") == Inherited("toString")
    ensures CompanyName("toString") == "toString Corp."
  {
  }

  /** Outside the inherited names, the code as written and the intended
      lookup agree. */
  lemma AsWrittenAgreesElsewhere(key: string)
    requires key !in ObjectPrototypeKeys
    ensures CompanyNameAsWritten(key) == NameText(CompanyName(key))
  {
  }

  /** A known ticker gets its table entry; any other ticker gets a name that
      starts with the ticker itself and ends in " Corp.". */
  lemma CompanyNameSpec(key: string)
    ensures key in KnownTickers ==> CompanyName(key) == KnownTickers[key]
    ensures key !in KnownTickers ==>
      && |CompanyName(key)| == |key| + 6
      && CompanyName(key)[..|key|] == key
      && CompanyName(key)[|key|..] == " Corp."
    ensures CompanyName(key) != ""
  {
  }

  lemma AppleIsKnown()
    ensures CompanyName("AAPL") == "Apple Inc."
  {
  }
}
