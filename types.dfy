/** The record shapes of the tracker (types/index.ts). Market figures, which the
    source keeps as JavaScript numbers, are `real`; timestamps are milliseconds. */
module Types {

  /** `T | null` or an absent key. */
  datatype Option<+T> = None | Some(value: T)

  datatype BaseToken = BaseToken(address: string, name: string, symbol: string)

  datatype PriceChange = PriceChange(h24: real)

  datatype Volume = Volume(h24: real, h6: real, h1: real, m5: real)

  datatype TxnCounts = TxnCounts(buys: real, sells: real)

  datatype Txns = Txns(h24: TxnCounts, h6: TxnCounts, h1: TxnCounts, m5: TxnCounts)

  /** The fixed four-key social-link table; an absent link is `null`. */
  datatype Socials = Socials(website: Option<string>, twitter: Option<string>,
                             telegram: Option<string>, discord: Option<string>)

  datatype Info = Info(imageUrl: Option<string>, header: Option<string>, socials: Socials)

  /** Market data of one token, as the fetcher produces it. */
  datatype TokenData = TokenData(
    baseToken: BaseToken,
    priceUsd: string,
    priceChange: PriceChange,
    volume: Volume,
    txns: Txns,
    marketCap: real,
    info: Info)

  /** The user's cost basis for a tracked token. */
  datatype EntryData = EntryData(price: real, marketCap: real, timestamp: int)

  /** One tracked token: market data plus the user's note and entry data. */
  datatype TokenEntry = TokenEntry(
    baseToken: BaseToken,
    priceUsd: string,
    priceChange: PriceChange,
    volume: Volume,
    txns: Txns,
    marketCap: real,
    info: Info,
    note: Option<string>,
    entryData: EntryData)

  /** A user-defined group; `tokens` may be missing in persisted data, so it is optional. */
  datatype TokenGroup = TokenGroup(id: string, name: string, description: Option<string>,
                                   tokens: Option<seq<string>>)

  /** `{ ...data, note, entryData }` */
  function EntryOf(d: TokenData, note: Option<string>, entryData: EntryData): TokenEntry {
    TokenEntry(d.baseToken, d.priceUsd, d.priceChange, d.volume, d.txns, d.marketCap, d.info,
               note, entryData)
  }
}
