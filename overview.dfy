/** The company-overview normalisation of services/stockService.js
    (`formatCompanyOverview`): a fixed one-to-one rename of provider keys. */
module Overview {
  import opened Js

  /** The normalised company overview; `None` is a field left undefined. */
  datatype CompanyOverview = CompanyOverview(
    symbol: Option<Json>,
    name: Option<Json>,
    description: Option<Json>,
    exchange: Option<Json>,
    currency: Option<Json>,
    country: Option<Json>,
    sector: Option<Json>,
    industry: Option<Json>,
    marketCap: Option<Json>,
    peRatio: Option<Json>,
    pegRatio: Option<Json>,
    bookValue: Option<Json>,
    dividendYield: Option<Json>,
    eps: Option<Json>,
    revenuePerShare: Option<Json>,
    profitMargin: Option<Json>,
    operatingMargin: Option<Json>,
    returnOnAssets: Option<Json>,
    returnOnEquity: Option<Json>,
    week52High: Option<Json>,
    week52Low: Option<Json>,
    movingAverage50: Option<Json>,
    movingAverage200: Option<Json>,
    sharesOutstanding: Option<Json>,
    beta: Option<Json>,
    address: Option<Json>)

  /** The fields of an overview, one constructor per field. */
  datatype OverviewField =
    Symbol | Name | Description | Exchange | Currency | Country | Sector | Industry
    | MarketCap | PeRatio | PegRatio | BookValue | DividendYield | Eps | RevenuePerShare
    | ProfitMargin | OperatingMargin | ReturnOnAssets | ReturnOnEquity | Week52High
    | Week52Low | MovingAverage50 | MovingAverage200 | SharesOutstanding | Beta | Address

  /** The provider key each field is read from: the rename table. */
  function SourceKey(f: OverviewField): string {
    match f
    case Symbol => "Symbol"
    case Name => "Name"
    case Description => "Description"
    case Exchange => "Exchange"
    case Currency => "Currency"
    case Country => "Country"
    case Sector => "Sector"
    case Industry => "Industry"
    case MarketCap => "MarketCapitalization"
    case PeRatio => "PERatio"
    case PegRatio => "PEGRatio"
    case BookValue => "BookValue"
    case DividendYield => "DividendYield"
    case Eps => "EPS"
    case RevenuePerShare => "RevenuePerShareTTM"
    case ProfitMargin => "ProfitMargin"
    case OperatingMargin => "OperatingMarginTTM"
    case ReturnOnAssets => "ReturnOnAssetsTTM"
    case ReturnOnEquity => "ReturnOnEquityTTM"
    case Week52High => "52WeekHigh"
    case Week52Low => "52WeekLow"
    case MovingAverage50 => "50DayMovingAverage"
    case MovingAverage200 => "200DayMovingAverage"
    case SharesOutstanding => "SharesOutstanding"
    case Beta => "Beta"
    case Address => "Address"
  }

  /** The value of field `f` of an overview. */
  function FieldOf(o: CompanyOverview, f: OverviewField): Option<Json> {
    match f
    case Symbol => o.symbol
    case Name => o.name
    case Description => o.description
    case Exchange => o.exchange
    case Currency => o.currency
    case Country => o.country
    case Sector => o.sector
    case Industry => o.industry
    case MarketCap => o.marketCap
    case PeRatio => o.peRatio
    case PegRatio => o.pegRatio
    case BookValue => o.bookValue
    case DividendYield => o.dividendYield
    case Eps => o.eps
    case RevenuePerShare => o.revenuePerShare
    case ProfitMargin => o.profitMargin
    case OperatingMargin => o.operatingMargin
    case ReturnOnAssets => o.returnOnAssets
    case ReturnOnEquity => o.returnOnEquity
    case Week52High => o.week52High
    case Week52Low => o.week52Low
    case MovingAverage50 => o.movingAverage50
    case MovingAverage200 => o.movingAverage200
    case SharesOutstanding => o.sharesOutstanding
    case Beta => o.beta
    case Address => o.address
  }

  /** The object literal of `formatCompanyOverview`, each field read with
      `read` (`apiData.Symbol` is `read("Symbol")`). */
  function RenameFrom(read: string -> Option<Json>): CompanyOverview {
    CompanyOverview(
      symbol := read("Symbol"),
      name := read("Name"),
      description := read("Description"),
      exchange := read("Exchange"),
      currency := read("Currency"),
      country := read("Country"),
      sector := read("Sector"),
      industry := read("Industry"),
      marketCap := read("MarketCapitalization"),
      peRatio := read("PERatio"),
      pegRatio := read("PEGRatio"),
      bookValue := read("BookValue"),
      dividendYield := read("DividendYield"),
      eps := read("EPS"),
      revenuePerShare := read("RevenuePerShareTTM"),
      profitMargin := read("ProfitMargin"),
      operatingMargin := read("OperatingMarginTTM"),
      returnOnAssets := read("ReturnOnAssetsTTM"),
      returnOnEquity := read("ReturnOnEquityTTM"),
      week52High := read("52WeekHigh"),
      week52Low := read("52WeekLow"),
      movingAverage50 := read("50DayMovingAverage"),
      movingAverage200 := read("200DayMovingAverage"),
      sharesOutstanding := read("SharesOutstanding"),
      beta := read("Beta"),
      address := read("Address"))
  }

  /** `formatCompanyOverview(apiData)`. */
  function FormatCompanyOverview(data: Payload): (r: CompanyOverview)
    ensures forall f :: FieldOf(r, f) == Member(data, SourceKey(f))
  {
    var read := key => Member(data, key);
    assert forall f :: FieldOf(RenameFrom(read), f) == read(SourceKey(f)) by {
      forall f ensures FieldOf(RenameFrom(read), f) == read(SourceKey(f)) {
        RenameFollowsTable(read, f);
      }
    }
    RenameFrom(read)
  }

  /** The object literal follows the rename table: field `f` is read from
      its provider key. */
  lemma RenameFollowsTable(read: string -> Option<Json>, f: OverviewField)
    ensures FieldOf(RenameFrom(read), f) == read(SourceKey(f))
  {
  }

  /** Every output field holds exactly the value under its provider key, and
      is undefined exactly when that key is missing: no default is put in its
      place. */
  lemma OverviewFollowsRenames(data: Payload)
    ensures forall f :: FieldOf(FormatCompanyOverview(data), f) == Member(data, SourceKey(f))
    ensures forall f :: FieldOf(FormatCompanyOverview(data), f).None? <==>
      !(data.JObj? && SourceKey(f) in data.fields)
  {
  }

  /** The rename is one to one: no two fields are read from the same key. */
  lemma RenameOneToOne(f: OverviewField, g: OverviewField)
    requires SourceKey(f) == SourceKey(g)
    ensures f == g
  {
  }

  /** Only the listed provider keys matter: two payloads that agree on them
      give overviews that agree on every field. */
  lemma OverviewIgnoresOtherKeys(a: Payload, b: Payload)
    requires forall f :: Member(a, SourceKey(f)) == Member(b, SourceKey(f))
    ensures forall f :: FieldOf(FormatCompanyOverview(a), f) == FieldOf(FormatCompanyOverview(b), f)
  {
    OverviewFollowsRenames(a);
    OverviewFollowsRenames(b);
  }

  /** The payload of the overview example: only `Symbol` and `PERatio`. */
  const ExampleOverviewData: Payload := JObj(map["Symbol" := JStr("AAPL"), "PERatio" := JStr("28.5")])

  /** In the overview example, `symbol` and `peRatio` carry the given values. */
  lemma OverviewExampleGiven(data: Payload, f: OverviewField)
    requires data == ExampleOverviewData
    requires f == Symbol || f == PeRatio
    ensures FieldOf(FormatCompanyOverview(data), f) == Some(if f == Symbol then JStr("AAPL") else JStr("28.5"))
  {
    RenameFollowsTable(key => Member(data, key), f);
  }

  /** In the overview example, a field other than `symbol` and `peRatio` is
      undefined. */
  lemma OverviewExampleAbsent(data: Payload, f: OverviewField)
    requires data == ExampleOverviewData
    requires f != Symbol && f != PeRatio
    ensures FieldOf(FormatCompanyOverview(data), f).None?
  {
    OtherKeyIsNeither(f);
    RenameFollowsTable(key => Member(data, key), f);
  }

  /** The overview example: only `Symbol` and `PERatio` are given, so only
      `symbol` and `peRatio` are defined. */
  lemma OverviewExample(data: Payload)
    requires data == ExampleOverviewData
    ensures FieldOf(FormatCompanyOverview(data), Symbol) == Some(JStr("AAPL"))
    ensures FieldOf(FormatCompanyOverview(data), PeRatio) == Some(JStr("28.5"))
    ensures forall f :: f != Symbol && f != PeRatio ==> FieldOf(FormatCompanyOverview(data), f).None?
  {
    OverviewExampleGiven(data, Symbol);
    OverviewExampleGiven(data, PeRatio);
    forall f | f != Symbol && f != PeRatio
      ensures FieldOf(FormatCompanyOverview(data), f).None?
    {
      OverviewExampleAbsent(data, f);
    }
  }

  /** Every field other than `symbol` and `peRatio` is read from another key. */
  lemma OtherKeyIsNeither(f: OverviewField)
    requires f != Symbol && f != PeRatio
    ensures SourceKey(f) != "Symbol" && SourceKey(f) != "PERatio"
  {
  }
}
