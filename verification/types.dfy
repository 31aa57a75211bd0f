/** The enumerations and record shapes of the application's type
    declarations (types.ts).

    The records are filled from the parsed model reply, which is an untyped
    value in the source: the declared field types are never enforced at run
    time. So the fields the source copies verbatim hold JavaScript values
    (`Option<Json>`, `None` being `undefined`), and the defaulted fields hold
    whatever `raw || default` produced. The enumerations give the string
    constants that the defaults and the BUY comparison use. */
module Types {
  import opened Base
  import opened JsValues

  datatype RecommendationType = Buy | Sell | Hold | Avoid {
    function Name(): string {
      match this
      case Buy => "BUY"
      case Sell => "SELL"
      case Hold => "HOLD"
      case Avoid => "AVOID"
    }
  }

  datatype Sentiment = Bullish | Bearish | Neutral {
    function Name(): string {
      match this
      case Bullish => "BULLISH"
      case Bearish => "BEARISH"
      case Neutral => "NEUTRAL"
    }
  }

  datatype TradeHorizon = Intraday | Btst | Swing | Positional {
    function Name(): string {
      match this
      case Intraday => "INTRADAY"
      case Btst => "BTST"
      case Swing => "SWING"
      case Positional => "POSITIONAL"
    }
  }

  datatype SetupType = Breakout | Reversal | Momentum | SupportBounce | ResistanceRejection {
    function Name(): string {
      match this
      case Breakout => "BREAKOUT"
      case Reversal => "REVERSAL"
      case Momentum => "MOMENTUM"
      case SupportBounce => "SUPPORT_BOUNCE"
      case ResistanceRejection => "RESISTANCE_REJECTION"
    }
  }

  datatype NewsImpact = High | Medium | Low {
    function Name(): string {
      match this
      case High => "HIGH"
      case Medium => "MEDIUM"
      case Low => "LOW"
    }
  }

  /** Reads a recommendation back from its string value: the inverse of
      `RecommendationType.Name`. */
  function RecommendationFromName(s: string): (r: Option<RecommendationType>)
    ensures forall x: RecommendationType :: x.Name() == s <==> r == Some(x)
  {
    if s == "BUY" then Some(Buy)
    else if s == "SELL" then Some(Sell)
    else if s == "HOLD" then Some(Hold)
    else if s == "AVOID" then Some(Avoid)
    else None
  }

  /** The recommendation a JavaScript value denotes, if it is one of the
      enumeration's strings. */
  function DecodeRecommendation(v: Option<Json>): Option<RecommendationType> {
    match v
    case Some(JStr(s)) => RecommendationFromName(s)
    case _ => None
  }

  datatype SectorPerformance = SectorPerformance(name: Json, strength: real)

  datatype StockRecommendation = StockRecommendation(
    symbol: Option<Json>,
    companyName: Option<Json>,
    currentPrice: Option<Json>,
    entryRange: Json,
    targetPrice: Json,
    stopLoss: Json,
    tradeHorizon: Json,
    setupType: Json,
    sector: Option<Json>,
    sectorSentiment: Option<Json>,
    volumeAnalysis: Option<Json>,
    newsSummary: Option<Json>,
    newsImpact: Json,
    recommendation: Option<Json>,
    reasoning: Option<Json>)

  datatype SourceLink = SourceLink(title: string, uri: string)

  datatype MarketAnalysis = MarketAnalysis(
    marketSentiment: Json,
    overallSummary: Json,
    topSectors: seq<SectorPerformance>,
    weakSectors: seq<SectorPerformance>,
    stocks: seq<StockRecommendation>,
    sourceUrls: seq<SourceLink>)
}
