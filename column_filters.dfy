/**
 * The `onFilter` predicates of the table columns and the filter values each
 * column offers (src/pages/LandingPage.tsx).
 */
module ColumnFilters {
  import opened Records

  /** How many of the offered filter values accept a record. */
  function AcceptCount(values: seq<string>, accepts: string -> bool): nat
  {
    if values == [] then 0
    else (if accepts(values[0]) then 1 else 0) + AcceptCount(values[1..], accepts)
  }

  // ---- 24h change of a token ----

  const Change24hValues: seq<string> := ["positive", "negative"]

  /** `value === "positive" ? change24h >= 0 : change24h < 0`. */
  predicate Change24hFilter(value: string, record: Token)
  {
    if value == "positive" then record.change24h >= 0.0 else record.change24h < 0.0
  }

  /** Each token passes exactly one of "positive" and "negative". */
  lemma Change24hFilterPartition(record: Token)
    ensures AcceptCount(Change24hValues, v => Change24hFilter(v, record)) == 1
  {
  }

  // ---- APY of a staked asset ----

  const ApyValues: seq<string> := ["high", "medium", "low"]

  /** The `switch` over the APY band; an unknown band keeps every record. */
  predicate ApyFilter(value: string, record: StakedAsset)
  {
    if value == "high" then record.apy > 20.0
    else if value == "medium" then 10.0 <= record.apy <= 20.0
    else if value == "low" then record.apy < 10.0
    else true
  }

  /** Every APY falls in exactly one of the three bands. */
  lemma ApyFilterPartition(record: StakedAsset)
    ensures AcceptCount(ApyValues, v => ApyFilter(v, record)) == 1
  {
  }

  // ---- type and status of a transaction ----

  const TypeValues: seq<string> := ["send", "receive", "swap"]
  const StatusValues: seq<string> := ["completed", "pending", "failed"]

  /** `record.type === value`. */
  predicate TypeFilter(value: string, record: Transaction)
  {
    TxTypeName(record.txType) == value
  }

  /** `record.status === value`. */
  predicate StatusFilter(value: string, record: Transaction)
  {
    TxStatusName(record.status) == value
  }

  /** Selecting a type's own name keeps exactly the transactions of that type. */
  lemma TypeFilterSelectsType(t: TxType, record: Transaction)
    ensures TypeFilter(TxTypeName(t), record) <==> record.txType == t
  {
    TxTypeNameInjective(record.txType, t);
  }

  /** Selecting a status's own name keeps exactly the transactions with that status. */
  lemma StatusFilterSelectsStatus(s: TxStatus, record: Transaction)
    ensures StatusFilter(TxStatusName(s), record) <==> record.status == s
  {
    TxStatusNameInjective(record.status, s);
  }

  /**
   * Sends, receives and swaps pass exactly one offered type value; stakes,
   * unstakes and approvals pass none of them.
   */
  lemma TypeFilterCoverage(record: Transaction)
    ensures AcceptCount(TypeValues, v => TypeFilter(v, record))
         == if record.txType in {Send, Receive, Swap} then 1 else 0
  {
  }

  /** Every transaction passes exactly one offered status value. */
  lemma StatusFilterPartition(record: Transaction)
    ensures AcceptCount(StatusValues, v => StatusFilter(v, record)) == 1
  {
  }
}
