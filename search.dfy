/**
 * The search boxes of the portfolio and NFT views, and the option list of
 * the NFT collection selector (src/pages/LandingPage.tsx).
 */
module Search {
  import opened Records
  import opened Text
  import opened Seqs

  /** A token is kept when its lowered name or symbol includes the lowered search text. */
  predicate TokenMatches(t: Token, searchText: string)
  {
    var q := Lower(searchText);
    Includes(Lower(t.name), q) || Includes(Lower(t.symbol), q)
  }

  /** `data.tokens.filter(...)`, the rows of the portfolio table. */
  function TokenSearch(tokens: seq<Token>, searchText: string): (r: seq<Token>)
    ensures IsSubseq(r, tokens)
    ensures forall t :: t in r <==> t in tokens && TokenMatches(t, searchText)
    ensures forall t :: multiset(r)[t] == if TokenMatches(t, searchText) then multiset(tokens)[t] else 0
    ensures searchText == "" ==> r == tokens
  {
    Filter(tokens, t => TokenMatches(t, searchText))
  }

  /** An NFT is kept when its lowered name or collection includes the lowered search text. */
  predicate NftMatches(n: Nft, searchText: string)
  {
    var q := Lower(searchText);
    Includes(Lower(n.name), q) || Includes(Lower(n.collection), q)
  }

  /** `data.nfts.filter(...)`, the cards of the NFT view. */
  function NftSearch(nfts: seq<Nft>, searchText: string): (r: seq<Nft>)
    ensures IsSubseq(r, nfts)
    ensures forall n :: n in r <==> n in nfts && NftMatches(n, searchText)
    ensures forall n :: multiset(r)[n] == if NftMatches(n, searchText) then multiset(nfts)[n] else 0
    ensures searchText == "" ==> r == nfts
  {
    Filter(nfts, n => NftMatches(n, searchText))
  }

  /**
   * Typing more search text, in any letter case, can only remove tokens,
   * never add or reorder them.
   */
  lemma TokenSearchNarrows(tokens: seq<Token>, shorter: string, longer: string)
    requires Includes(Lower(longer), Lower(shorter))
    ensures IsSubseq(TokenSearch(tokens, longer), TokenSearch(tokens, shorter))
  {
    forall t | t in tokens && TokenMatches(t, longer)
      ensures TokenMatches(t, shorter)
    {
      if Includes(Lower(t.name), Lower(longer)) {
        IncludesTransitive(Lower(t.name), Lower(longer), Lower(shorter));
      } else {
        IncludesTransitive(Lower(t.symbol), Lower(longer), Lower(shorter));
      }
    }
    FilterMonotone(tokens, t => TokenMatches(t, longer), t => TokenMatches(t, shorter));
  }

  /**
   * Typing more search text, in any letter case, can only remove NFTs,
   * never add or reorder them.
   */
  lemma NftSearchNarrows(nfts: seq<Nft>, shorter: string, longer: string)
    requires Includes(Lower(longer), Lower(shorter))
    ensures IsSubseq(NftSearch(nfts, longer), NftSearch(nfts, shorter))
  {
    forall n | n in nfts && NftMatches(n, longer)
      ensures NftMatches(n, shorter)
    {
      if Includes(Lower(n.name), Lower(longer)) {
        IncludesTransitive(Lower(n.name), Lower(longer), Lower(shorter));
      } else {
        IncludesTransitive(Lower(n.collection), Lower(longer), Lower(shorter));
      }
    }
    FilterMonotone(nfts, n => NftMatches(n, longer), n => NftMatches(n, shorter));
  }

  /** The search ignores the letter case of the search text. */
  lemma SearchIgnoresCase(tokens: seq<Token>, nfts: seq<Nft>, searchText: string)
    ensures TokenSearch(tokens, Lower(searchText)) == TokenSearch(tokens, searchText)
    ensures NftSearch(nfts, Lower(searchText)) == NftSearch(nfts, searchText)
  {
    LowerIdempotent(searchText);
    FilterCongruent(tokens, t => TokenMatches(t, Lower(searchText)), t => TokenMatches(t, searchText));
    FilterCongruent(nfts, n => NftMatches(n, Lower(searchText)), n => NftMatches(n, searchText));
  }

  /** `data.nfts.map(nft => nft.collection)`. */
  function CollectionNames(nfts: seq<Nft>): (r: seq<string>)
    ensures |r| == |nfts|
    ensures forall k :: 0 <= k < |nfts| ==> r[k] == nfts[k].collection
  {
    if nfts == [] then [] else [nfts[0].collection] + CollectionNames(nfts[1..])
  }

  /** `[...new Set(collections)]`: the distinct collections of the NFTs. */
  function Collections(nfts: seq<Nft>): (r: seq<string>)
    ensures Distinct(r)
    ensures forall c :: c in r <==> exists k :: 0 <= k < |nfts| && nfts[k].collection == c
  {
    var names := CollectionNames(nfts);
    var r := InsertionOrder(names);
    assert forall c :: c in names <==> exists k :: 0 <= k < |nfts| && nfts[k].collection == c by {
      forall c | c in names
        ensures exists k :: 0 <= k < |nfts| && nfts[k].collection == c
      {
        var k := FirstIndex(names, c);
        assert nfts[k].collection == c;
      }
    }
    r
  }

  /** The collections are listed in the order of their first NFT. */
  lemma CollectionsInFirstOccurrenceOrder(nfts: seq<Nft>, i: int, j: int)
    requires 0 <= i < j < |Collections(nfts)|
    ensures Collections(nfts)[i] in CollectionNames(nfts) && Collections(nfts)[j] in CollectionNames(nfts)
    ensures FirstIndex(CollectionNames(nfts), Collections(nfts)[i])
          < FirstIndex(CollectionNames(nfts), Collections(nfts)[j])
  {
    InsertionOrderFollowsFirstOccurrence(CollectionNames(nfts), i, j);
  }

  /** One `{ label, value }` entry of a `Select` (`label` is a reserved word here). */
  datatype SelectOption = SelectOption(labelText: string, value: string)

  /** The options of the "Filter by Collection" selector: one per distinct collection. */
  function CollectionOptions(nfts: seq<Nft>): (r: seq<SelectOption>)
    ensures |r| == |Collections(nfts)|
    ensures forall k :: 0 <= k < |r| ==> r[k].labelText == r[k].value == Collections(nfts)[k]
  {
    var cs := Collections(nfts);
    seq(|cs|, k requires 0 <= k < |cs| => SelectOption(cs[k], cs[k]))
  }
}
