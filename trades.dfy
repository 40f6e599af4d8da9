/** The few fields of the accounting library's records that the command line and
    the Zerion importer touch. Amounts are decimals,
    modelled as exact reals (the source rounds quotients). */
module Trades {

  /** An asset, known by its identifier in the asset database. */
  datatype Asset = Asset(identifier: string)

  datatype TradeType = Buy | Sell

  /** A trade: when, where, the pair, direction, amount of the base asset, the
      price in quote asset per base unit, the fee, and a link (the transaction
      hash for on-chain trades). */
  datatype Trade = Trade(
    timestamp: int,
    location: string,
    baseAsset: Asset,
    quoteAsset: Asset,
    tradeType: TradeType,
    amount: real,
    rate: real,
    fee: real,
    feeCurrency: Asset,
    link: string)
}
