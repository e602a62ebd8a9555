/**
 * Record shapes of backend/app/models/stock.py, as values. Dates and display
 * names are not part of the model: a leg records the positions of its bars
 * in the analysed window instead of their dates.
 */
module Models {
  import opened Wrappers
  import opened Series

  /** The `info` dictionary of numeric fields from the data provider; `None` stands for a JSON null. */
  type Info = map<string, Option<real>>

  /** What the data provider returns for a symbol: its daily series and its info, either possibly missing. */
  datatype Fetched = Fetched(bars: Option<seq<Bar>>, info: Option<Info>)

  datatype SentimentType = Positive | Negative | Neutral

  datatype VcpLeg = VcpLeg(
    legNumber: nat,
    startIndex: nat,
    endIndex: nat,
    highPrice: real,
    lowPrice: real,
    pullbackDepth: real,
    volumeRatio: real,
    durationDays: int)

  datatype VcpSetup = VcpSetup(
    symbol: string,
    currentPrice: real,
    legs: seq<VcpLeg>,
    totalBaseDepth: real,
    baseDurationDays: int,
    pivotPrice: real,
    distanceFromPivot: real,
    relativeStrength: real,
    rsPercentile: real,
    volumeDryUp: real,
    trendAlignment: bool,
    score: real,
    sma20: real,
    sma50: real,
    sma200: Option<real>)

  datatype BreakoutCandidate = BreakoutCandidate(
    symbol: string,
    breakoutPrice: real,
    pivotPrice: real,
    breakoutVolume: int,
    relativeVolume: real,
    priceChangePct: real,
    gapUpPct: real,
    confirmationScore: real,
    vcpSetup: Option<VcpSetup>)

  datatype SentimentData = SentimentData(
    symbol: string,
    newsSentimentScore: real,
    sentimentLabel: SentimentType,
    newsCount: nat,
    positiveNews: nat,
    negativeNews: nat,
    neutralNews: nat,
    topHeadlines: seq<string>)
}
