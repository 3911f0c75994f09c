/** The market-movers normalisation of services/stockService.js
    (`formatStockData` and `formatStockList`). */
module Movers {
  import opened Js
  import opened CompanyNames

  /** One ranked entry of a movers list. */
  datatype MoverRecord = MoverRecord(
    id: nat,
    ticker: Option<Json>,
    name: string,
    price: string,
    change: Option<Json>,
    changeAmount: string,
    volume: Option<Json>)

  /** The normalised movers payload. */
  datatype MoversSnapshot = MoversSnapshot(
    metadata: Option<Json>,
    lastUpdated: Option<Json>,
    topGainers: seq<MoverRecord>,
    topLosers: seq<MoverRecord>,
    mostActive: seq<MoverRecord>)

  /** `fixed2(s)` stands for `parseFloat(s).toFixed(2)`, whose floating-point
      rendering is not modelled. */
  type Fixed2 = string -> string

  /** `"$" + parseFloat(v).toFixed(2)` for a possibly undefined field;
      `parseFloat` first converts the field to a string, which throws for a
      value with no string form. */
  function Dollars(v: Option<Json>, fixed2: Fixed2): (r: Settled<string>)
    ensures r.Resolved? <==> Converts(v)
    ensures r.Rejected? ==> r.error == EngineText(NoPrimitive)
    ensures r.Resolved? ==> |r.value| >= 1 && r.value[0] == '$' && r.value[1..] == fixed2(StringOf(v).value)
  {
    var text :- StringOf(v);
    Resolved("$" + fixed2(text))
  }

  /** The `map` callback of `formatStockList` can build a record for `stock`:
      it is not null, and its ticker (made a property key and a template
      part by `getCompanyName`), price and change amount convert to strings. */
  ghost predicate Formattable(stock: Json) {
    && !stock.JNull?
    && Converts(Member(stock, "ticker"))
    && Converts(Member(stock, "price"))
    && Converts(Member(stock, "change_amount"))
  }

  /** The error the callback raises for an entry it cannot build a record for. */
  ghost function EntryFault(stock: Json): Message {
    if stock.JNull? then EngineText(ReadOfNull("ticker")) else EngineText(NoPrimitive)
  }

  /** The record the `map` callback of `formatStockList` builds for `stock`
      at 0-based position `index`, its fields evaluated in the order the
      object literal lists them. */
  function FormatStock(stock: Json, index: nat, fixed2: Fixed2): (r: Settled<MoverRecord>)
    ensures r.Resolved? <==> Formattable(stock)
    ensures r.Rejected? ==> r.error == EntryFault(stock)
    ensures r.Resolved? ==> Describes(r.value, stock, index + 1, fixed2)
  {
    if stock.JNull? then Rejected(EngineText(ReadOfNull("ticker")))
    else
      var ticker := Member(stock, "ticker");
      var key :- StringOf(ticker);
      var price :- Dollars(Member(stock, "price"), fixed2);
      var changeAmount :- Dollars(Member(stock, "change_amount"), fixed2);
      Resolved(MoverRecord(
        id := index + 1,
        ticker := ticker,
        name := CompanyName(key),
        price := price,
        change := Member(stock, "change_percentage"),
        changeAmount := changeAmount,
        volume := Member(stock, "volume")))
  }

  /** What a record promises about the source entry it was made from. */
  ghost predicate Describes(rec: MoverRecord, stock: Json, rank: nat, fixed2: Fixed2) {
    && Formattable(stock)
    && rec.id == rank
    && rec.ticker == Member(stock, "ticker")
    && rec.name == CompanyName(StringOf(Member(stock, "ticker")).value)
    && rec.change == Member(stock, "change_percentage")
    && rec.volume == Member(stock, "volume")
    && |rec.price| >= 1 && rec.price[0] == '$'
    && rec.price[1..] == fixed2(StringOf(Member(stock, "price")).value)
    && |rec.changeAmount| >= 1 && rec.changeAmount[0] == '$'
    && rec.changeAmount[1..] == fixed2(StringOf(Member(stock, "change_amount")).value)
  }

  /** `records` is `stocks` mapped in order, ranked 1, 2, ... */
  ghost predicate Ranked(records: seq<MoverRecord>, stocks: seq<Json>, fixed2: Fixed2) {
    && |records| == |stocks|
    && forall i :: 0 <= i < |records| ==> Describes(records[i], stocks[i], i + 1, fixed2)
  }

  ghost predicate AllFormattable(stocks: seq<Json>) {
    forall i :: 0 <= i < |stocks| ==> Formattable(stocks[i])
  }

  /** The error of the first entry the callback cannot build a record for. */
  ghost function ListFault(stocks: seq<Json>): Message
    requires !AllFormattable(stocks)
  {
    if !Formattable(stocks[0]) then EntryFault(stocks[0]) else ListFault(stocks[1..])
  }

  /** `stocks.slice(k).map(...)` with positions counted in the whole list;
      the first entry the callback cannot build a record for decides the
      error. */
  function FormatFrom(stocks: seq<Json>, k: nat, fixed2: Fixed2): (r: Settled<seq<MoverRecord>>)
    requires k <= |stocks|
    ensures r.Resolved? <==> AllFormattable(stocks[k..])
    ensures r.Rejected? ==> r.error == ListFault(stocks[k..])
    ensures r.Resolved? ==> |r.value| == |stocks| - k
    ensures r.Resolved? ==> forall j :: 0 <= j < |r.value| ==>
      Describes(r.value[j], stocks[k + j], k + j + 1, fixed2)
    decreases |stocks| - k
  {
    if k == |stocks| then Resolved([])
    else
      assert stocks[k..][0] == stocks[k];
      assert stocks[k..][1..] == stocks[k + 1..];
      var record :- FormatStock(stocks[k], k, fixed2);
      var rest :- FormatFrom(stocks, k + 1, fixed2);
      PrependDescribed(record, rest, stocks, k, fixed2);
      Resolved([record] + rest)
  }

  /** Putting the record of entry k in front of the records of the entries
      after it keeps every record next to the entry it was made from. */
  lemma PrependDescribed(record: MoverRecord, rest: seq<MoverRecord>, stocks: seq<Json>, k: nat, fixed2: Fixed2)
    requires k < |stocks| && |rest| == |stocks| - (k + 1)
    requires Describes(record, stocks[k], k + 1, fixed2)
    requires forall j :: 0 <= j < |rest| ==> Describes(rest[j], stocks[k + 1 + j], k + 1 + j + 1, fixed2)
    ensures forall j :: 0 <= j < |[record] + rest| ==>
      Describes(([record] + rest)[j], stocks[k + j], k + j + 1, fixed2)
  {
    forall j | 0 <= j < |[record] + rest|
      ensures Describes(([record] + rest)[j], stocks[k + j], k + j + 1, fixed2)
    {
      if j > 0 {
        assert ([record] + rest)[j] == rest[j - 1];
      }
    }
  }

  /** `formatStockList(stocks)`: one record per entry, in order, with `id`
      the 1-based position. */
  function FormatStockList(stocks: seq<Json>, fixed2: Fixed2): (r: Settled<seq<MoverRecord>>)
    ensures r.Resolved? <==> AllFormattable(stocks)
    ensures r.Rejected? ==> r.error == ListFault(stocks)
    ensures r.Resolved? ==> Ranked(r.value, stocks, fixed2)
  {
    assert stocks[0..] == stocks;
    FormatFrom(stocks, 0, fixed2)
  }

  /** `apiData[key] || []` as `.map` sees it: a falsy or missing value is the
      empty list, an array its entries, anything else has no `map` to call. */
  function SourceList(data: Payload, key: string): Settled<seq<Json>> {
    var v := Member(data, key);
    if !Truthy(v) then Resolved([])
    else if v.value.JArr? then Resolved(v.value.items)
    else Rejected(EngineText(NotAFunction("map")))
  }

  /** The entries the list under `key` is made from (none when it is missing). */
  ghost function SourceItems(data: Payload, key: string): seq<Json> {
    var v := Member(data, key);
    if Truthy(v) && v.value.JArr? then v.value.items else []
  }

  /** The list under `key` formats without throwing. */
  ghost predicate Formats(data: Payload, key: string) {
    var v := Member(data, key);
    !Truthy(v) || (v.value.JArr? && AllFormattable(v.value.items))
  }

  /** The error formatting the list under `key` raises, when it does. */
  ghost function FaultOf(data: Payload, key: string): Message {
    var v := Member(data, key);
    if Truthy(v) && v.value.JArr? && !AllFormattable(v.value.items) then ListFault(v.value.items)
    else EngineText(NotAFunction("map"))
  }

  function FormatList(data: Payload, key: string, fixed2: Fixed2): (r: Settled<seq<MoverRecord>>)
    ensures r.Resolved? <==> Formats(data, key)
    ensures r.Rejected? ==> r.error == FaultOf(data, key)
    ensures r.Resolved? ==> Ranked(r.value, SourceItems(data, key), fixed2)
  {
    var stocks :- SourceList(data, key);
    FormatStockList(stocks, fixed2)
  }

  const GainersKey := "top_gainers"
  const LosersKey := "top_losers"
  const ActiveKey := "most_actively_traded"

  /** `formatStockData(apiData)`. The three lists are formatted in the order
      gainers, losers, most active, and the first one that throws decides the
      error. Each list is numbered from 1 on its own. */
  function FormatStockData(data: Payload, fixed2: Fixed2): (r: Settled<MoversSnapshot>)
    ensures r.Resolved? <==> Formats(data, GainersKey) && Formats(data, LosersKey) && Formats(data, ActiveKey)
    ensures !Formats(data, GainersKey) ==> r == Rejected(FaultOf(data, GainersKey))
    ensures Formats(data, GainersKey) && !Formats(data, LosersKey) ==> r == Rejected(FaultOf(data, LosersKey))
    ensures Formats(data, GainersKey) && Formats(data, LosersKey) && !Formats(data, ActiveKey) ==>
      r == Rejected(FaultOf(data, ActiveKey))
    ensures r.Resolved? ==>
      && r.value.metadata == Member(data, "metadata")
      && r.value.lastUpdated == Member(data, "last_updated")
      && Ranked(r.value.topGainers, SourceItems(data, GainersKey), fixed2)
      && Ranked(r.value.topLosers, SourceItems(data, LosersKey), fixed2)
      && Ranked(r.value.mostActive, SourceItems(data, ActiveKey), fixed2)
  {
    var topGainers :- FormatList(data, GainersKey, fixed2);
    var topLosers :- FormatList(data, LosersKey, fixed2);
    var mostActive :- FormatList(data, ActiveKey, fixed2);
    Resolved(MoversSnapshot(
      metadata := Member(data, "metadata"),
      lastUpdated := Member(data, "last_updated"),
      topGainers := topGainers,
      topLosers := topLosers,
      mostActive := mostActive))
  }

  /** An entry whose price is an object with its own `toString` key makes the
      list raise the TypeError of converting that price, before any record
      is returned. */
  lemma UnconvertiblePriceRaises(stock: Json, fixed2: Fixed2)
    requires stock.JObj? && "price" in stock.fields && stock.fields["price"].JObj?
    requires "toString" in stock.fields["price"].fields
    ensures FormatStockList([stock], fixed2) == Rejected(EngineText(NoPrimitive))
  {
    assert !Converts(Member(stock, "price"));
    assert [stock][0] == stock;
    assert !AllFormattable([stock]);
  }

  /** A missing list comes out empty, never absent. */
  lemma MissingListIsEmpty(data: Payload, fixed2: Fixed2)
    requires FormatStockData(data, fixed2).Resolved?
    ensures Member(data, GainersKey).None? ==> FormatStockData(data, fixed2).value.topGainers == []
    ensures Member(data, LosersKey).None? ==> FormatStockData(data, fixed2).value.topLosers == []
    ensures Member(data, ActiveKey).None? ==> FormatStockData(data, fixed2).value.mostActive == []
  {
  }

  /** Numbering restarts at 1 in every list: in each of the three lists the
      entry at index i has id i + 1, whatever the other lists hold. */
  lemma NumberingRestarts(data: Payload, fixed2: Fixed2)
    requires FormatStockData(data, fixed2).Resolved?
    ensures var s := FormatStockData(data, fixed2).value;
      && (forall i :: 0 <= i < |s.topGainers| ==> s.topGainers[i].id == i + 1)
      && (forall i :: 0 <= i < |s.topLosers| ==> s.topLosers[i].id == i + 1)
      && (forall i :: 0 <= i < |s.mostActive| ==> s.mostActive[i].id == i + 1)
  {
  }

  /** The provider entry of the movers example. */
  const ExampleStock := JObj(map[
    "ticker" := JStr("AAPL"), "price" := JStr("150.00"), "change_percentage" := JStr("5%"),
    "change_amount" := JStr("7.5"), "volume" := JStr("1000000")])

  const ExampleRecord := MoverRecord(1, Some(JStr("AAPL")), "Apple Inc.", "$150.00",
                                     Some(JStr("5%")), "$7.50", Some(JStr("1000000")))

  /** The fields of the example entry that a record reads. */
  lemma ExampleStockFields()
    ensures Member(ExampleStock, "ticker") == Some(JStr("AAPL"))
    ensures Member(ExampleStock, "price") == Some(JStr("150.00"))
    ensures Member(ExampleStock, "change_percentage") == Some(JStr("5%"))
    ensures Member(ExampleStock, "change_amount") == Some(JStr("7.5"))
    ensures Member(ExampleStock, "volume") == Some(JStr("1000000"))
  {
  }

  /** The two prices of the example entry, rendered with two decimals. */
  lemma ExampleDollars(fixed2: Fixed2)
    requires fixed2("150.00") == "150.00" && fixed2("7.5") == "7.50"
    ensures Dollars(Some(JStr("150.00")), fixed2) == Resolved("$150.00")
    ensures Dollars(Some(JStr("7.5")), fixed2) == Resolved("$7.50")
  {
    assert StringOf(Some(JStr("150.00"))) == Resolved("150.00");
    assert "$" + "150.00" == "$150.00";
    assert StringOf(Some(JStr("7.5"))) == Resolved("7.5");
    assert "$" + "7.50" == "$7.50";
  }

  /** The example entry formats to record 1, named "Apple Inc.". */
  lemma ExampleRecordFormats(stock: Json, fixed2: Fixed2)
    requires stock == ExampleStock
    requires fixed2("150.00") == "150.00" && fixed2("7.5") == "7.50"
    ensures FormatStock(stock, 0, fixed2) == Resolved(ExampleRecord)
  {
    ExampleStockFields();
    ExampleDollars(fixed2);
    AppleIsKnown();
    assert StringOf(Member(stock, "ticker")) == Resolved("AAPL");
  }

  /** The list holding only the example entry formats to that one record. */
  lemma ExampleStockFormats(fixed2: Fixed2)
    requires fixed2("150.00") == "150.00" && fixed2("7.5") == "7.50"
    ensures FormatStockList([ExampleStock], fixed2) == Resolved([ExampleRecord])
  {
    ExampleRecordFormats(ExampleStock, fixed2);
    assert FormatFrom([ExampleStock], 1, fixed2) == Resolved([]);
    assert [ExampleStock][0] == ExampleStock;
    assert FormatFrom([ExampleStock], 0, fixed2) == Resolved([ExampleRecord] + []);
    assert [ExampleRecord] + [] == [ExampleRecord];
  }

  /** A list field that is absent formats to the empty list. */
  lemma AbsentListFormatsEmpty(data: Payload, key: string, fixed2: Fixed2)
    requires Member(data, key).None?
    ensures FormatList(data, key, fixed2) == Resolved([])
  {
    assert SourceList(data, key) == Resolved([]);
    assert FormatFrom([], 0, fixed2) == Resolved([]);
  }

  /** The payload of the movers example: one gainer and nothing else. */
  const ExampleMoversData: Payload := JObj(map[GainersKey := JArr([ExampleStock])])

  /** In the movers example, the gainers field holds the example entry. */
  lemma ExampleGainersSource(data: Payload)
    requires data == ExampleMoversData
    ensures SourceList(data, GainersKey) == Resolved([ExampleStock])
  {
  }

  /** In the movers example, the gainers list formats to the example record. */
  lemma ExampleGainers(data: Payload, fixed2: Fixed2)
    requires data == ExampleMoversData
    requires fixed2("150.00") == "150.00" && fixed2("7.5") == "7.50"
    ensures FormatList(data, GainersKey, fixed2) == Resolved([ExampleRecord])
  {
    ExampleGainersSource(data);
    ExampleStockFormats(fixed2);
  }

  /** In the movers example, every other field the snapshot reads is absent. */
  lemma ExampleMissingFields(data: Payload)
    requires data == ExampleMoversData
    ensures Member(data, LosersKey).None? && Member(data, ActiveKey).None?
    ensures Member(data, "metadata").None? && Member(data, "last_updated").None?
  {
  }

  /** The movers example: one gainer AAPL priced "150.00" becomes record 1,
      named "Apple Inc." and priced "$150.00"; the missing lists are empty. */
  lemma MoversExample(data: Payload, fixed2: Fixed2)
    requires data == ExampleMoversData
    requires fixed2("150.00") == "150.00" && fixed2("7.5") == "7.50"
    ensures FormatStockData(data, fixed2) == Resolved(MoversSnapshot(None, None, [ExampleRecord], [], []))
  {
    ExampleGainers(data, fixed2);
    ExampleMissingFields(data);
    AbsentListFormatsEmpty(data, LosersKey, fixed2);
    AbsentListFormatsEmpty(data, ActiveKey, fixed2);
  }
}
