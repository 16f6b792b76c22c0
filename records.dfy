/**
 * The record shapes of the wallet data set (src/data/data.ts). Numbers are
 * modelled as `real` (no floating-point rounding) and dates as the integer
 * millisecond value `Date.getTime()` returns.
 */
module Records {

  datatype Token = Token(
    symbol: string,
    name: string,
    balance: real,
    price: real,
    change24h: real,
    change7d: real,
    marketCap: real,
    volume24h: real,
    icon: string)

  /** One `{ type, value }` entry of an NFT's trait list. */
  datatype Trait = Trait(traitType: string, value: string)

  datatype Nft = Nft(
    id: string,
    name: string,
    collection: string,
    floorPrice: real,
    lastPrice: real,
    rarity: real,
    rank: real,
    image: string,
    traits: seq<Trait>)

  datatype StakedAsset = StakedAsset(
    protocol: string,
    amount: real,
    apy: real,
    rewards: real,
    lockPeriod: real,
    unlockDate: int,
    rewardToken: string)

  /** The string union `"send" | "receive" | "swap" | "stake" | "unstake" | "approve"`. */
  datatype TxType = Send | Receive | Swap | Stake | Unstake | Approve

  /** The string union `"completed" | "pending" | "failed"`. */
  datatype TxStatus = Completed | Pending | Failed

  datatype Transaction = Transaction(
    id: string,
    txType: TxType,
    amount: real,
    token: string,
    timestamp: int,
    status: TxStatus,
    from: string,
    to: string,
    hash: string,
    fee: real,
    methodName: string,
    block: real)

  /** The string a transaction type stands for in the data. */
  function TxTypeName(t: TxType): string
  {
    match t
    case Send => "send"
    case Receive => "receive"
    case Swap => "swap"
    case Stake => "stake"
    case Unstake => "unstake"
    case Approve => "approve"
  }

  /** The string a transaction status stands for in the data. */
  function TxStatusName(s: TxStatus): string
  {
    match s
    case Completed => "completed"
    case Pending => "pending"
    case Failed => "failed"
  }

  /** Distinct types are distinct strings, so the string union is faithful. */
  lemma TxTypeNameInjective(t: TxType, u: TxType)
    ensures TxTypeName(t) == TxTypeName(u) <==> t == u
  {
  }

  lemma TxStatusNameInjective(s: TxStatus, u: TxStatus)
    ensures TxStatusName(s) == TxStatusName(u) <==> s == u
  {
  }

  /** The part of the `data` prop that the component reads. */
  datatype WalletData = WalletData(
    tokens: seq<Token>,
    nfts: seq<Nft>,
    stakedAssets: seq<StakedAsset>,
    transactions: seq<Transaction>)
}
