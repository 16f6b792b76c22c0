/**
 * The `sorter` comparators of the table columns (src/pages/LandingPage.tsx).
 * A numeric column compares by `key(a) - key(b)`: negative puts `a` first,
 * zero keeps the pair tied, positive puts `b` first.
 */
module Sorters {
  import opened Records

  /** `x - y` read as a comparison result. */
  function Difference(x: real, y: real): (r: real)
    ensures r < 0.0 <==> x < y
    ensures r == 0.0 <==> x == y
    ensures r > 0.0 <==> x > y
  {
    x - y
  }

  /** Swapping the operands negates the comparison. */
  lemma DifferenceAntisymmetric(x: real, y: real)
    ensures Difference(x, y) == -Difference(y, x)
  {
  }

  // ---- portfolio table ----

  datatype TokenColumn = Balance | Price | Change24h | Volume24h

  /** The field a numeric token column sorts by. */
  function TokenKey(column: TokenColumn, t: Token): real
  {
    match column
    case Balance => t.balance
    case Price => t.price
    case Change24h => t.change24h
    case Volume24h => t.volume24h
  }

  function TokenSorter(column: TokenColumn, a: Token, b: Token): (r: real)
    ensures r < 0.0 <==> TokenKey(column, a) < TokenKey(column, b)
    ensures r == 0.0 <==> TokenKey(column, a) == TokenKey(column, b)
  {
    Difference(TokenKey(column, a), TokenKey(column, b))
  }

  lemma TokenSorterAntisymmetric(column: TokenColumn, a: Token, b: Token)
    ensures TokenSorter(column, a, b) == -TokenSorter(column, b, a)
  {
  }

  // ---- staking table ----

  datatype StakeColumn = StakedAmount | Apy | Rewards | LockPeriod | UnlockDate

  /** The field a numeric staking column sorts by; dates by `getTime()`. */
  function StakeKey(column: StakeColumn, s: StakedAsset): real
  {
    match column
    case StakedAmount => s.amount
    case Apy => s.apy
    case Rewards => s.rewards
    case LockPeriod => s.lockPeriod
    case UnlockDate => s.unlockDate as real
  }

  function StakeSorter(column: StakeColumn, a: StakedAsset, b: StakedAsset): (r: real)
    ensures r < 0.0 <==> StakeKey(column, a) < StakeKey(column, b)
    ensures r == 0.0 <==> StakeKey(column, a) == StakeKey(column, b)
    ensures column == UnlockDate ==> (r < 0.0 <==> a.unlockDate < b.unlockDate)
  {
    Difference(StakeKey(column, a), StakeKey(column, b))
  }

  lemma StakeSorterAntisymmetric(column: StakeColumn, a: StakedAsset, b: StakedAsset)
    ensures StakeSorter(column, a, b) == -StakeSorter(column, b, a)
  {
  }

  // ---- transaction table ----

  /** "Value" sorts by the amount, exactly as "Amount" does. */
  datatype TxColumn = TxAmount | TxValue | Timestamp

  function TxKey(column: TxColumn, t: Transaction): real
  {
    match column
    case TxAmount => t.amount
    case TxValue => t.amount
    case Timestamp => t.timestamp as real
  }

  function TxSorter(column: TxColumn, a: Transaction, b: Transaction): (r: real)
    ensures r < 0.0 <==> TxKey(column, a) < TxKey(column, b)
    ensures r == 0.0 <==> TxKey(column, a) == TxKey(column, b)
    ensures column == Timestamp ==> (r < 0.0 <==> a.timestamp < b.timestamp)
  {
    Difference(TxKey(column, a), TxKey(column, b))
  }

  lemma TxSorterAntisymmetric(column: TxColumn, a: Transaction, b: Transaction)
    ensures TxSorter(column, a, b) == -TxSorter(column, b, a)
  {
  }

  /** The "Value" column orders transactions exactly as the "Amount" column does. */
  lemma ValueSortsLikeAmount(a: Transaction, b: Transaction)
    ensures TxSorter(TxValue, a, b) == TxSorter(TxAmount, a, b)
  {
  }

  // ---- string columns ----

  /**
   * `a.localeCompare(b)`, approximated by code-point order: -1 when `a` sorts
   * first, 0 when equal, 1 when `b` sorts first.
   */
  function LexCompare(a: string, b: string): (r: int)
    ensures -1 <= r <= 1
  {
    if a == [] && b == [] then 0
    else if a == [] then -1
    else if b == [] then 1
    else if a[0] < b[0] then -1
    else if a[0] > b[0] then 1
    else LexCompare(a[1..], b[1..])
  }

  lemma {:induction false} LexCompareAntisymmetric(a: string, b: string)
    ensures LexCompare(a, b) == -LexCompare(b, a)
  {
    if a != [] && b != [] && a[0] == b[0] {
      LexCompareAntisymmetric(a[1..], b[1..]);
    }
  }

  lemma {:induction false} LexCompareZeroIffEqual(a: string, b: string)
    ensures LexCompare(a, b) == 0 <==> a == b
  {
    if a != [] && b != [] && a[0] == b[0] {
      LexCompareZeroIffEqual(a[1..], b[1..]);
      assert a == [a[0]] + a[1..] && b == [b[0]] + b[1..];
    }
  }

  lemma {:induction false} LexCompareTransitive(a: string, b: string, c: string)
    requires LexCompare(a, b) < 0 && LexCompare(b, c) < 0
    ensures LexCompare(a, c) < 0
  {
    if a != [] && b != [] && c != [] && a[0] == b[0] == c[0] {
      LexCompareTransitive(a[1..], b[1..], c[1..]);
    }
  }

  /** The "Asset" column: `a.symbol.localeCompare(b.symbol)`. */
  function SymbolSorter(a: Token, b: Token): (r: int)
    ensures r == 0 <==> a.symbol == b.symbol
    ensures r == -LexCompare(b.symbol, a.symbol)
  {
    LexCompareZeroIffEqual(a.symbol, b.symbol);
    LexCompareAntisymmetric(a.symbol, b.symbol);
    LexCompare(a.symbol, b.symbol)
  }

  /** The "Protocol" column: `a.protocol.localeCompare(b.protocol)`. */
  function ProtocolSorter(a: StakedAsset, b: StakedAsset): (r: int)
    ensures r == 0 <==> a.protocol == b.protocol
    ensures r == -LexCompare(b.protocol, a.protocol)
  {
    LexCompareZeroIffEqual(a.protocol, b.protocol);
    LexCompareAntisymmetric(a.protocol, b.protocol);
    LexCompare(a.protocol, b.protocol)
  }
}
