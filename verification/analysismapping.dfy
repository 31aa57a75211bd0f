/** The mapping from the parsed reply to a `MarketAnalysis`
    (services/geminiService.ts, the object literal after "Map to strictly
    typed interface"): every field read from the parsed value, with the
    source's `raw || default` fallbacks, the sector and stock array maps,
    and the TypeErrors that reading from `null` or calling `.map` on a
    non-array raises. */
module AnalysisMapping {
  import opened Base
  import opened JsValues
  import opened Types

  /** The run-time TypeErrors the mapping can raise: reading property `key`
      of `null`, or calling `.map` on the truthy non-array found at `key`. */
  datatype ShapeError = NullRead(key: string) | NotAnArray(key: string)

  const DefaultSummary: string := "Analysis complete."
  const DefaultEntryRange: string := "At Market"
  const DefaultLevel: string := "TBD"
  const DefaultStrength: real := 5.0

  /** The `strength` of a sector entry: its value when it is a number,
      otherwise 5. */
  function StrengthOf(raw: Option<Json>): real {
    match raw
    case Some(JNum(x)) => x
    case _ => DefaultStrength
  }

  /** One `topSectors`/`weakSectors` element: `{name: s.name || s,
      strength: typeof s.strength === 'number' ? s.strength : 5}`. */
  function MapSector(s: Json): (r: Result<SectorPerformance, ShapeError>)
    ensures r.Err? <==> s == JNull
    ensures r.Err? ==> r.error == NullRead("name")
    ensures r.Ok? ==> DefaultedFrom(r.value.name, Prop(s, "name"), s)
    ensures r.Ok? ==> (Prop(s, "strength").Some? && Prop(s, "strength").value.JNum? ==> r.value.strength == Prop(s, "strength").value.n)
    ensures r.Ok? ==> (!(Prop(s, "strength").Some? && Prop(s, "strength").value.JNum?) ==> r.value.strength == 5.0)
  {
    if s == JNull then Err(NullRead("name"))
    else Ok(SectorPerformance(OrElse(Prop(s, "name"), s), StrengthOf(Prop(s, "strength"))))
  }

  /** One `stocks` element. `symbol`, `companyName`, `currentPrice`,
      `sector`, `sectorSentiment`, `volumeAnalysis`, `newsSummary`,
      `recommendation` and `reasoning` are copied as read (possibly
      `undefined`); the other six fall back to their defaults when falsy. */
  function MapStock(s: Json): (r: Result<StockRecommendation, ShapeError>)
    ensures r.Err? <==> s == JNull
    ensures r.Err? ==> r.error == NullRead("symbol")
  {
    if s == JNull then Err(NullRead("symbol"))
    else
      Ok(StockRecommendation(
           symbol := Prop(s, "symbol"),
           companyName := Prop(s, "companyName"),
           currentPrice := Prop(s, "currentPrice"),
           entryRange := OrElse(Prop(s, "entryRange"), JStr(DefaultEntryRange)),
           targetPrice := OrElse(Prop(s, "targetPrice"), JStr(DefaultLevel)),
           stopLoss := OrElse(Prop(s, "stopLoss"), JStr(DefaultLevel)),
           tradeHorizon := OrElse(Prop(s, "tradeHorizon"), JStr(Intraday.Name())),
           setupType := OrElse(Prop(s, "setupType"), JStr(Momentum.Name())),
           sector := Prop(s, "sector"),
           sectorSentiment := Prop(s, "sectorSentiment"),
           volumeAnalysis := Prop(s, "volumeAnalysis"),
           newsSummary := Prop(s, "newsSummary"),
           newsImpact := OrElse(Prop(s, "newsImpact"), JStr(Low.Name())),
           recommendation := Prop(s, "recommendation"),
           reasoning := Prop(s, "reasoning")))
  }

  /** The per-field contract of a stock entry: nine fields copied as read
      (possibly `undefined`, no default), six replaced by their default
      exactly when the value read is falsy. */
  lemma {:induction false} MapStockFields(s: Json)
    requires s != JNull
    ensures MapStock(s).Ok?
    ensures && MapStock(s).value.symbol == Prop(s, "symbol")
              && MapStock(s).value.companyName == Prop(s, "companyName")
              && MapStock(s).value.currentPrice == Prop(s, "currentPrice")
              && MapStock(s).value.sector == Prop(s, "sector")
              && MapStock(s).value.sectorSentiment == Prop(s, "sectorSentiment")
              && MapStock(s).value.volumeAnalysis == Prop(s, "volumeAnalysis")
              && MapStock(s).value.newsSummary == Prop(s, "newsSummary")
              && MapStock(s).value.recommendation == Prop(s, "recommendation")
              && MapStock(s).value.reasoning == Prop(s, "reasoning")
    ensures && DefaultedFrom(MapStock(s).value.entryRange, Prop(s, "entryRange"), JStr("At Market"))
              && DefaultedFrom(MapStock(s).value.targetPrice, Prop(s, "targetPrice"), JStr("TBD"))
              && DefaultedFrom(MapStock(s).value.stopLoss, Prop(s, "stopLoss"), JStr("TBD"))
              && DefaultedFrom(MapStock(s).value.tradeHorizon, Prop(s, "tradeHorizon"), JStr("INTRADAY"))
              && DefaultedFrom(MapStock(s).value.setupType, Prop(s, "setupType"), JStr("MOMENTUM"))
              && DefaultedFrom(MapStock(s).value.newsImpact, Prop(s, "newsImpact"), JStr("LOW"))
  {
  }

  /** `(raw || [])` as the receiver of `.map`: a falsy value stands for the
      empty array, an array is used as is, and any other truthy value has
      no `map` method. */
  function ArrayOrEmpty(raw: Option<Json>, key: string): (r: Result<seq<Json>, ShapeError>)
    ensures !Truthy(raw) ==> r == Ok([])
    ensures Truthy(raw) && raw.value.JArr? ==> r == Ok(raw.value.items)
    ensures Truthy(raw) && !raw.value.JArr? ==> r == Err(NotAnArray(key))
  {
    if !Truthy(raw) then Ok([])
    else
      match raw.value
      case JArr(items) => Ok(items)
      case _ => Err(NotAnArray(key))
  }

  function MapSectors(raw: Option<Json>, key: string): Result<seq<SectorPerformance>, ShapeError> {
    var items :- ArrayOrEmpty(raw, key);
    Traverse(MapSector, items)
  }

  /** The whole record, fields evaluated in the object literal's order, so
      the first TypeError raised decides the error. `sourceUrls` is computed
      separately from the grounding metadata and passed in. */
  function MapAnalysis(p: Json, sourceUrls: seq<SourceLink>): (r: Result<MarketAnalysis, ShapeError>)
    ensures p == JNull ==> r == Err(NullRead("marketSentiment"))
    ensures r.Ok? ==>
              && DefaultedFrom(r.value.marketSentiment, Prop(p, "marketSentiment"), JStr("NEUTRAL"))
              && DefaultedFrom(r.value.overallSummary, Prop(p, "overallSummary"), JStr("Analysis complete."))
              && r.value.sourceUrls == sourceUrls
    ensures r.Ok? && !Truthy(Prop(p, "topSectors")) ==> r.value.topSectors == []
    ensures r.Ok? && !Truthy(Prop(p, "weakSectors")) ==> r.value.weakSectors == []
    ensures r.Ok? && !Truthy(Prop(p, "stocks")) ==> r.value.stocks == []
    ensures r.Ok? <==> && p != JNull
                       && MapSectors(Prop(p, "topSectors"), "topSectors").Ok?
                       && MapSectors(Prop(p, "weakSectors"), "weakSectors").Ok?
                       && ArrayOrEmpty(Prop(p, "stocks"), "stocks").Ok?
                       && forall i :: 0 <= i < |ArrayOrEmpty(Prop(p, "stocks"), "stocks").value| ==>
                            ArrayOrEmpty(Prop(p, "stocks"), "stocks").value[i] != JNull
    ensures r.Ok? ==> r.value.topSectors == MapSectors(Prop(p, "topSectors"), "topSectors").value
    ensures r.Ok? ==> r.value.weakSectors == MapSectors(Prop(p, "weakSectors"), "weakSectors").value
    ensures r.Ok? ==> var items := ArrayOrEmpty(Prop(p, "stocks"), "stocks").value;
                      |r.value.stocks| == |items| && forall i :: 0 <= i < |items| ==> MapStock(items[i]) == Ok(r.value.stocks[i])
    ensures p != JNull && MapSectors(Prop(p, "topSectors"), "topSectors").Err? ==>
              r == Err(MapSectors(Prop(p, "topSectors"), "topSectors").error)
    ensures p != JNull && MapSectors(Prop(p, "topSectors"), "topSectors").Ok? && MapSectors(Prop(p, "weakSectors"), "weakSectors").Err? ==>
              r == Err(MapSectors(Prop(p, "weakSectors"), "weakSectors").error)
    ensures (p != JNull && MapSectors(Prop(p, "topSectors"), "topSectors").Ok? && MapSectors(Prop(p, "weakSectors"), "weakSectors").Ok?
             && ArrayOrEmpty(Prop(p, "stocks"), "stocks").Err?) ==> r == Err(NotAnArray("stocks"))
    ensures (r.Err? && p != JNull && MapSectors(Prop(p, "topSectors"), "topSectors").Ok? && MapSectors(Prop(p, "weakSectors"), "weakSectors").Ok?
             && ArrayOrEmpty(Prop(p, "stocks"), "stocks").Ok?) ==> r == Err(NullRead("symbol"))
  {
    if p == JNull then Err(NullRead("marketSentiment"))
    else
      var top :- MapSectors(Prop(p, "topSectors"), "topSectors");
      var weak :- MapSectors(Prop(p, "weakSectors"), "weakSectors");
      var items :- ArrayOrEmpty(Prop(p, "stocks"), "stocks");
      var stocks :- Traverse(MapStock, items);
      Ok(MarketAnalysis(
           marketSentiment := OrElse(Prop(p, "marketSentiment"), JStr(Neutral.Name())),
           overallSummary := OrElse(Prop(p, "overallSummary"), JStr(DefaultSummary)),
           topSectors := top,
           weakSectors := weak,
           stocks := stocks,
           sourceUrls := sourceUrls))
  }

  /** Sector arrays keep their length and order; each element is mapped on
      its own; a `null` element is the only thing that makes the map throw. */
  lemma {:induction false} MapSectorsPreservesOrder(items: seq<Json>, key: string)
    ensures MapSectors(Some(JArr(items)), key).Ok? <==> forall i :: 0 <= i < |items| ==> items[i] != JNull
    ensures MapSectors(Some(JArr(items)), key).Ok? ==>
              var sectors := MapSectors(Some(JArr(items)), key).value;
              |sectors| == |items| && forall i :: 0 <= i < |items| ==> MapSector(items[i]) == Ok(sectors[i])
    ensures MapSectors(Some(JArr(items)), key).Err? ==> MapSectors(Some(JArr(items)), key).error == NullRead("name")
  {
    var r := Traverse(MapSector, items);
    assert forall i :: 0 <= i < |items| ==> (MapSector(items[i]).Ok? <==> items[i] != JNull);
    if r.Err? {
      var i :| 0 <= i < |items| && MapSector(items[i]) == Err(r.error);
    }
  }

  /** A sector given as a bare string names itself; a strength that is not
      a number, such as the string "8", becomes 5. */
  lemma {:induction false} SectorFallbacks()
    ensures MapSector(JStr("IT")) == Ok(SectorPerformance(JStr("IT"), 5.0))
    ensures MapSector(JObj(map["name" := JStr("IT"), "strength" := JStr("8")])).value.strength == 5.0
  {
  }

  /** The parsed value `{}`: every default at once. */
  lemma {:induction false} EmptyObjectDefaults(sourceUrls: seq<SourceLink>)
    ensures MapAnalysis(JObj(map[]), sourceUrls)
         == Ok(MarketAnalysis(JStr("NEUTRAL"), JStr("Analysis complete."), [], [], [], sourceUrls))
  {
  }

  // ---------------------------------------------------------------- round trip

  /** The JSON form a mapped sector serialises to. */
  function SectorToJson(sp: SectorPerformance): Json {
    JObj(map["name" := sp.name, "strength" := JNum(sp.strength)])
  }

  /** The property names of a stock record. */
  const StockKeys: set<string> := {
    "symbol", "companyName", "currentPrice", "entryRange", "targetPrice", "stopLoss",
    "tradeHorizon", "setupType", "sector", "sectorSentiment", "volumeAnalysis",
    "newsSummary", "newsImpact", "recommendation", "reasoning"}

  /** The value the record holds under a property name. */
  function StockField(r: StockRecommendation, key: string): Option<Json> {
    if key == "symbol" then r.symbol
    else if key == "companyName" then r.companyName
    else if key == "currentPrice" then r.currentPrice
    else if key == "entryRange" then Some(r.entryRange)
    else if key == "targetPrice" then Some(r.targetPrice)
    else if key == "stopLoss" then Some(r.stopLoss)
    else if key == "tradeHorizon" then Some(r.tradeHorizon)
    else if key == "setupType" then Some(r.setupType)
    else if key == "sector" then r.sector
    else if key == "sectorSentiment" then r.sectorSentiment
    else if key == "volumeAnalysis" then r.volumeAnalysis
    else if key == "newsSummary" then r.newsSummary
    else if key == "newsImpact" then Some(r.newsImpact)
    else if key == "recommendation" then r.recommendation
    else if key == "reasoning" then r.reasoning
    else None
  }

  /** The JSON form a mapped stock serialises to; `JSON.stringify` omits the
      properties whose value is `undefined`. */
  function StockToJson(r: StockRecommendation): Json {
    JObj(map k | k in StockKeys && StockField(r, k).Some? :: StockField(r, k).value)
  }

  lemma {:induction false} StockToJsonProp(r: StockRecommendation, key: string)
    requires key in StockKeys
    ensures Prop(StockToJson(r), key) == StockField(r, key)
  {
  }

  function SectorsToJson(xs: seq<SectorPerformance>): (r: seq<Json>)
    ensures |r| == |xs| && forall i :: 0 <= i < |xs| ==> r[i] == SectorToJson(xs[i])
  {
    seq(|xs|, i requires 0 <= i < |xs| => SectorToJson(xs[i]))
  }

  function StocksToJson(xs: seq<StockRecommendation>): (r: seq<Json>)
    ensures |r| == |xs| && forall i :: 0 <= i < |xs| ==> r[i] == StockToJson(xs[i])
  {
    seq(|xs|, i requires 0 <= i < |xs| => StockToJson(xs[i]))
  }

  function AnalysisToJson(a: MarketAnalysis): Json {
    JObj(map[
      "marketSentiment" := a.marketSentiment,
      "overallSummary" := a.overallSummary,
      "topSectors" := JArr(SectorsToJson(a.topSectors)),
      "weakSectors" := JArr(SectorsToJson(a.weakSectors)),
      "stocks" := JArr(StocksToJson(a.stocks))])
  }

  /** Every defaulted field of the stock is truthy, so defaulting again
      keeps it. */
  ghost predicate StockNormal(r: StockRecommendation) {
    && Truthy(Some(r.entryRange)) && Truthy(Some(r.targetPrice)) && Truthy(Some(r.stopLoss))
    && Truthy(Some(r.tradeHorizon)) && Truthy(Some(r.setupType)) && Truthy(Some(r.newsImpact))
  }

  /** A mapped stock always has its six defaulted fields truthy. */
  lemma {:induction false} MapStockIsNormal(s: Json)
    requires MapStock(s).Ok?
    ensures StockNormal(MapStock(s).value)
  {
  }

  /** A stock in normal form survives serialising and mapping again
      unchanged, field for field. */
  lemma {:induction false} StockRoundTrip(r: StockRecommendation)
    requires StockNormal(r)
    ensures MapStock(StockToJson(r)) == Ok(r)
  {
    forall key | key in StockKeys
      ensures Prop(StockToJson(r), key) == StockField(r, key)
    {
      StockToJsonProp(r, key);
    }
  }

  /** Mapping a stock entry is idempotent: mapping the serialised result
      gives the result back. */
  lemma {:induction false} MapStockIdempotent(s: Json)
    requires MapStock(s).Ok?
    ensures MapStock(StockToJson(MapStock(s).value)) == MapStock(s)
  {
    MapStockIsNormal(s);
    StockRoundTrip(MapStock(s).value);
  }

  /** A stock entry whose six defaulted fields are all present and truthy is
      mapped to a record holding exactly the entry's values. */
  lemma {:induction false} MapStockCopiesCompleteEntry(s: Json)
    requires s != JNull
    requires Truthy(Prop(s, "entryRange")) && Truthy(Prop(s, "targetPrice")) && Truthy(Prop(s, "stopLoss"))
    requires Truthy(Prop(s, "tradeHorizon")) && Truthy(Prop(s, "setupType")) && Truthy(Prop(s, "newsImpact"))
    ensures MapStock(s).Ok?
    ensures var r := MapStock(s).value;
            && Some(r.entryRange) == Prop(s, "entryRange") && Some(r.targetPrice) == Prop(s, "targetPrice")
            && Some(r.stopLoss) == Prop(s, "stopLoss") && Some(r.tradeHorizon) == Prop(s, "tradeHorizon")
            && Some(r.setupType) == Prop(s, "setupType") && Some(r.newsImpact) == Prop(s, "newsImpact")
  {
  }

  /** A sector survives serialising and mapping again exactly when its name
      is truthy: a falsy name (an entry such as `0` or `""` that became its
      own name) is replaced by the serialised object on the second pass. */
  lemma {:induction false} SectorRoundTrip(sp: SectorPerformance)
    ensures MapSector(SectorToJson(sp)) == Ok(sp) <==> Truthy(Some(sp.name))
  {
    var j := SectorToJson(sp);
    assert Prop(j, "name") == Some(sp.name);
    assert Prop(j, "strength") == Some(JNum(sp.strength));
    if !Truthy(Some(sp.name)) {
      assert MapSector(j).value.name == j;
      assert j != sp.name;
    }
  }

  lemma {:induction false} TraverseSectorsRoundTrip(xs: seq<SectorPerformance>)
    requires forall i :: 0 <= i < |xs| ==> Truthy(Some(xs[i].name))
    ensures Traverse(MapSector, SectorsToJson(xs)) == Ok(xs)
  {
    var js := SectorsToJson(xs);
    forall i | 0 <= i < |xs|
      ensures MapSector(js[i]) == Ok(xs[i])
    {
      SectorRoundTrip(xs[i]);
    }
    TraverseAllOk(MapSector, js, xs);
  }

  lemma {:induction false} TraverseStocksRoundTrip(xs: seq<StockRecommendation>)
    requires forall i :: 0 <= i < |xs| ==> StockNormal(xs[i])
    ensures Traverse(MapStock, StocksToJson(xs)) == Ok(xs)
  {
    var js := StocksToJson(xs);
    forall i | 0 <= i < |xs|
      ensures MapStock(js[i]) == Ok(xs[i])
    {
      StockRoundTrip(xs[i]);
    }
    TraverseAllOk(MapStock, js, xs);
  }

  /** A record in normal form: truthy sentiment and summary, truthy sector
      names, stocks in normal form. */
  ghost predicate AnalysisNormal(a: MarketAnalysis) {
    && Truthy(Some(a.marketSentiment)) && Truthy(Some(a.overallSummary))
    && (forall i :: 0 <= i < |a.topSectors| ==> Truthy(Some(a.topSectors[i].name)))
    && (forall i :: 0 <= i < |a.weakSectors| ==> Truthy(Some(a.weakSectors[i].name)))
    && (forall i :: 0 <= i < |a.stocks| ==> StockNormal(a.stocks[i]))
  }

  /** The serialised record answers each property read with its field. */
  lemma {:induction false} AnalysisToJsonProps(a: MarketAnalysis)
    ensures Prop(AnalysisToJson(a), "marketSentiment") == Some(a.marketSentiment)
    ensures Prop(AnalysisToJson(a), "overallSummary") == Some(a.overallSummary)
    ensures Prop(AnalysisToJson(a), "topSectors")
         == Some(JArr(SectorsToJson(a.topSectors)))
    ensures Prop(AnalysisToJson(a), "weakSectors")
         == Some(JArr(SectorsToJson(a.weakSectors)))
    ensures Prop(AnalysisToJson(a), "stocks")
         == Some(JArr(StocksToJson(a.stocks)))
  {
  }

  lemma {:induction false} SectorsRoundTrip(xs: seq<SectorPerformance>, key: string)
    requires forall i :: 0 <= i < |xs| ==> Truthy(Some(xs[i].name))
    ensures MapSectors(Some(JArr(SectorsToJson(xs))), key) == Ok(xs)
  {
    TraverseSectorsRoundTrip(xs);
  }

  /** How `MapAnalysis` assembles a record once every part has succeeded. */
  lemma {:induction false} MapAnalysisAssembles(p: Json, sourceUrls: seq<SourceLink>, top: seq<SectorPerformance>,
                             weak: seq<SectorPerformance>, items: seq<Json>, stocks: seq<StockRecommendation>)
    requires p != JNull
    requires MapSectors(Prop(p, "topSectors"), "topSectors") == Ok(top)
    requires MapSectors(Prop(p, "weakSectors"), "weakSectors") == Ok(weak)
    requires ArrayOrEmpty(Prop(p, "stocks"), "stocks") == Ok(items)
    requires Traverse(MapStock, items) == Ok(stocks)
    ensures MapAnalysis(p, sourceUrls)
         == Ok(MarketAnalysis(OrElse(Prop(p, "marketSentiment"), JStr("NEUTRAL")),
                              OrElse(Prop(p, "overallSummary"), JStr("Analysis complete.")),
                              top, weak, stocks, sourceUrls))
  {
  }

  /** Feeding the serialised form of a normal record back through the
      mapping yields the same record, field for field. */
  lemma {:induction false} AnalysisRoundTrip(a: MarketAnalysis)
    requires AnalysisNormal(a)
    ensures MapAnalysis(AnalysisToJson(a), a.sourceUrls) == Ok(a)
  {
    var j := AnalysisToJson(a);
    var items := StocksToJson(a.stocks);
    assert MapSectors(Prop(j, "topSectors"), "topSectors") == Ok(a.topSectors) by {
      AnalysisToJsonProps(a);
      SectorsRoundTrip(a.topSectors, "topSectors");
    }
    assert MapSectors(Prop(j, "weakSectors"), "weakSectors") == Ok(a.weakSectors) by {
      AnalysisToJsonProps(a);
      SectorsRoundTrip(a.weakSectors, "weakSectors");
    }
    assert ArrayOrEmpty(Prop(j, "stocks"), "stocks") == Ok(items) by {
      AnalysisToJsonProps(a);
    }
    assert Traverse(MapStock, items) == Ok(a.stocks) by {
      TraverseStocksRoundTrip(a.stocks);
    }
    assert OrElse(Prop(j, "marketSentiment"), JStr("NEUTRAL")) == a.marketSentiment
        && OrElse(Prop(j, "overallSummary"), JStr("Analysis complete.")) == a.overallSummary by {
      AnalysisToJsonProps(a);
    }
    MapAnalysisAssembles(j, a.sourceUrls, a.topSectors, a.weakSectors, items, a.stocks);
  }

  /** A mapped record is in normal form whenever its sector names are
      truthy (the sector-name fallback is the one default that may be
      falsy). */
  lemma {:induction false} MapAnalysisIsNormal(p: Json, sourceUrls: seq<SourceLink>)
    requires MapAnalysis(p, sourceUrls).Ok?
    requires var a := MapAnalysis(p, sourceUrls).value;
             && (forall i :: 0 <= i < |a.topSectors| ==> Truthy(Some(a.topSectors[i].name)))
             && (forall i :: 0 <= i < |a.weakSectors| ==> Truthy(Some(a.weakSectors[i].name)))
    ensures AnalysisNormal(MapAnalysis(p, sourceUrls).value)
  {
    var a := MapAnalysis(p, sourceUrls).value;
    var items := ArrayOrEmpty(Prop(p, "stocks"), "stocks").value;
    forall i | 0 <= i < |a.stocks|
      ensures StockNormal(a.stocks[i])
    {
      assert MapStock(items[i]) == Ok(a.stocks[i]);
      MapStockIsNormal(items[i]);
    }
  }
}
