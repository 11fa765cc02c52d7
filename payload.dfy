/** The CoinGecko payloads the program decodes (src/main.rs:29-51). Only the
    fields the rest of the model touches are interpreted: a coin's `id` and
    `rate`, a quote's `usd`. `Decimal` is exact, so prices are `real`s. */
module Payload {
  import opened Base

  type TokenPlatforms = map<string, Option<string>>

  /** One entry of `/api/v3/coins/list`; `rate` is filled in by the poller. */
  datatype CgCoin = CgCoin(
    id: string,
    symbol: string,
    name: string,
    platforms: TokenPlatforms,
    rate: Option<real>)

  /** One quote of `/api/v3/simple/price`. */
  datatype CgRate = CgRate(usd: Option<real>, lastUpdatedAt: Option<u32>)

  /** The quotes of one price request, keyed by coin id. */
  type CgRateMap = map<string, CgRate>
}
