/**
 * The record shapes shared by the server routes and the client stores
 * (src/types/index.ts). Numbers that the application treats as integers are
 * `int`; ratings are `real`.
 */
module Domain {
  import opened Wrappers

  type Id = string

  /** An ISO-8601 time stamp, as `new Date().toISOString()` produces it. */
  type Timestamp = string

  /** A tunable input of a PineScript strategy. */
  datatype Parameter = Parameter(
    name: string,
    kind: string,
    defaultValue: int,
    min: Option<int>,
    max: Option<int>,
    description: string)

  datatype Author = Author(id: Id, name: string)

  datatype Strategy = Strategy(
    id: Id,
    name: string,
    description: string,
    pineScript: string,
    parameters: seq<Parameter>,
    author: Author,
    isPublic: bool,
    downloads: int,
    rating: real,
    tags: seq<string>,
    createdAt: Timestamp,
    updatedAt: Timestamp)

  datatype Plan = Free | Premium

  /** A user as the client sees it: never with a password. */
  datatype User = User(
    id: Id,
    email: string,
    name: string,
    plan: Plan,
    strategiesUsed: int,
    maxStrategies: int,
    createdAt: Timestamp,
    updatedAt: Timestamp)

  /** A backtest run; its performance figures, equity curve and trades are not modelled. */
  datatype BacktestResult = BacktestResult(id: Id, strategyId: Id, createdAt: Timestamp)

  /** The optional context of an AI generation request. */
  datatype AiContext = AiContext(
    market: Option<string>,
    timeframe: Option<string>,
    indicators: Option<seq<string>>,
    riskLevel: Option<string>)

  datatype AiRequest = AiRequest(prompt: string, context: Option<AiContext>)

  datatype GeneratedStrategy = GeneratedStrategy(
    name: string,
    description: string,
    pineScript: string,
    parameters: seq<Parameter>,
    explanation: string)

  datatype AiResponse = AiResponse(strategy: GeneratedStrategy, confidence: int, suggestions: seq<string>)
}
