/**
 * The `PortfolioContent` component (src/pages/LandingPage.tsx): its three
 * pieces of view state, the commands that overwrite them, and the choice of
 * renderer by `activeTab`. One state is shared by all four tabs.
 */
module PortfolioView {
  import opened Wrappers
  import opened Records
  import opened Seqs
  import opened Search

  /** The table's sorter object, as its property names mapped to their values; `{}` is the empty map. */
  type SorterInfo = map<string, string>

  /** The table's filters object: a column key to its selected values, or to `null`. */
  type FilterInfo = map<string, Option<seq<string>>>

  datatype Tab = PortfolioTab | NftsTab | StakingTab | TransactionsTab

  /** The keys of `contentMap`. */
  const TabKeys: set<string> := {"portfolio", "nfts", "staking", "transactions"}

  /** `contentMap[activeTab]`, which is `undefined` for any other key. */
  function TabOf(activeTab: string): (r: Option<Tab>)
    ensures r.Some? <==> activeTab in TabKeys
  {
    if activeTab == "portfolio" then Some(PortfolioTab)
    else if activeTab == "nfts" then Some(NftsTab)
    else if activeTab == "staking" then Some(StakingTab)
    else if activeTab == "transactions" then Some(TransactionsTab)
    else None
  }

  /** What a renderer hands to its table or card grid. */
  datatype Rows =
    | TokenRows(tokens: seq<Token>)
    | NftCards(nfts: seq<Nft>, options: seq<SelectOption>)
    | StakingRows(assets: seq<StakedAsset>)
    | TransactionRows(transactions: seq<Transaction>)

  /**
   * The records one tab shows for a search text. Only the portfolio and NFT
   * views apply the search; the other two always get their whole record set.
   */
  function TabRows(data: WalletData, tab: Tab, searchText: string): (r: Rows)
    ensures tab == PortfolioTab ==>
      (r.TokenRows? && IsSubseq(r.tokens, data.tokens) &&
       forall t :: multiset(r.tokens)[t] == if TokenMatches(t, searchText) then multiset(data.tokens)[t] else 0)
    ensures tab == NftsTab ==>
      (r.NftCards? && IsSubseq(r.nfts, data.nfts) && r.options == CollectionOptions(data.nfts) &&
       forall n :: multiset(r.nfts)[n] == if NftMatches(n, searchText) then multiset(data.nfts)[n] else 0)
    ensures tab == StakingTab ==> r == StakingRows(data.stakedAssets)
    ensures tab == TransactionsTab ==> r == TransactionRows(data.transactions)
  {
    match tab
    case PortfolioTab => TokenRows(TokenSearch(data.tokens, searchText))
    case NftsTab => NftCards(NftSearch(data.nfts, searchText), CollectionOptions(data.nfts))
    case StakingTab => StakingRows(data.stakedAssets)
    case TransactionsTab => TransactionRows(data.transactions)
  }

  /** With the initial empty search text every tab shows its whole record set. */
  lemma EmptySearchShowsAll(data: WalletData, tab: Tab)
    ensures TabRows(data, tab, "") == match tab
      case PortfolioTab => TokenRows(data.tokens)
      case NftsTab => NftCards(data.nfts, CollectionOptions(data.nfts))
      case StakingTab => StakingRows(data.stakedAssets)
      case TransactionsTab => TransactionRows(data.transactions)
  {
  }

  /** The search text never changes what the staking and transaction tabs, or the collection options, show. */
  lemma SearchOnlyNarrowsTokensAndNfts(data: WalletData, text1: string, text2: string)
    ensures TabRows(data, StakingTab, text1) == TabRows(data, StakingTab, text2)
    ensures TabRows(data, TransactionsTab, text1) == TabRows(data, TransactionsTab, text2)
    ensures TabRows(data, NftsTab, text1).options == TabRows(data, NftsTab, text2).options
  {
  }

  class PortfolioContent {
    var searchText: string
    var sortedInfo: SorterInfo
    var filteredInfo: FilterInfo

    /** All three pieces of state at their `useState` initial values. */
    predicate IsInitial()
      reads this
    {
      searchText == "" && sortedInfo == map[] && filteredInfo == map[]
    }

    constructor ()
      ensures IsInitial()
    {
      searchText := "";
      sortedInfo := map[];
      filteredInfo := map[];
    }

    /** The search box's `onChange`: the typed text, stored as is. */
    method SetSearchText(text: string)
      modifies this
      ensures searchText == text
      ensures sortedInfo == old(sortedInfo) && filteredInfo == old(filteredInfo)
    {
      searchText := text;
    }

    /** `handleChange`: the table's filters and sorter replace the stored ones. */
    method HandleChange(filters: FilterInfo, sorter: SorterInfo)
      modifies this
      ensures sortedInfo == sorter && filteredInfo == filters
      ensures searchText == old(searchText)
    {
      sortedInfo := sorter;
      filteredInfo := filters;
    }

    /** `clearAll`: back to the initial state, whatever the state was, so twice is once. */
    method ClearAll()
      modifies this
      ensures IsInitial()
    {
      sortedInfo := map[];
      filteredInfo := map[];
      searchText := "";
    }

    /**
     * `contentMap[activeTab]()`: the rows of the selected tab under the one
     * shared search text, or nothing for an unknown tab, where calling
     * `undefined` throws.
     */
    function Render(data: WalletData, activeTab: string): (r: Option<Rows>)
      reads this
      ensures r.Some? <==> activeTab in TabKeys
      ensures r.Some? ==> r.value == TabRows(data, TabOf(activeTab).value, searchText)
    {
      match TabOf(activeTab)
      case None => None
      case Some(tab) => Some(TabRows(data, tab, searchText))
    }
  }

  /**
   * Reset after any search and table change: the portfolio tab shows every
   * token again, and the state is the one a fresh component starts with.
   */
  method ResetAfterChanges(data: WalletData, view: PortfolioContent, text: string,
                           filters: FilterInfo, sorter: SorterInfo)
    modifies view
    ensures view.IsInitial()
    ensures view.Render(data, "portfolio") == Some(TokenRows(data.tokens))
  {
    view.SetSearchText(text);
    view.HandleChange(filters, sorter);
    view.ClearAll();
    view.ClearAll();
    EmptySearchShowsAll(data, PortfolioTab);
  }
}
