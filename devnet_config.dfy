/**
 * The helper functions of constants/devnet-config.ts: the cluster test and
 * the three Solana Explorer link builders (transaction, account, token).
 *
 * Each link is the explorer base URL, the kind of page, the id and the
 * cluster query. `ParseExplorerUrl` reads a link back; the round-trip lemmas
 * show that a link determines its kind and id, whatever the id is.
 */
module DevnetConfig {
  import opened Wrappers

  const EXPLORER_BASE_URL: string := "https://explorer.solana.com"
  const CLUSTER: string := "mainnet"

  /** `isMainnet`: the configured cluster is mainnet. */
  function IsMainnet(): (b: bool)
    ensures b
  {
    CLUSTER == "mainnet"
  }

  /** The three kinds of explorer page. */
  datatype ExplorerKind = Tx | Account | Token

  /** A link read back: the kind of page and the signature, address or mint it shows. */
  datatype ExplorerLink = ExplorerLink(kind: ExplorerKind, id: string)

  function KindPath(kind: ExplorerKind): string {
    match kind
    case Tx => "tx"
    case Account => "account"
    case Token => "token"
  }

  /** Everything in a link before the id. */
  function LinkPrefix(kind: ExplorerKind): string {
    EXPLORER_BASE_URL + "/" + KindPath(kind) + "/"
  }

  /** Everything in a link after the id. */
  const CLUSTER_QUERY: string := "?cluster=" + CLUSTER

  /** The shared template of the three builders. */
  function ExplorerUrl(kind: ExplorerKind, id: string): (url: string)
    ensures LinkPrefix(kind) <= url
    ensures |url| == |LinkPrefix(kind)| + |id| + |CLUSTER_QUERY|
    ensures url[|LinkPrefix(kind)|..|LinkPrefix(kind)| + |id|] == id
    ensures url[|url| - |CLUSTER_QUERY|..] == CLUSTER_QUERY
  {
    var url := LinkPrefix(kind) + id + CLUSTER_QUERY;
    assert url[|LinkPrefix(kind)|..|LinkPrefix(kind)| + |id|] == id;
    url
  }

  /** `url` has the shape of a link of `kind`: its prefix, some id, then the cluster query. */
  predicate IsLinkOf(url: string, kind: ExplorerKind) {
    LinkPrefix(kind) <= url &&
    |LinkPrefix(kind)| + |CLUSTER_QUERY| <= |url| &&
    url[|url| - |CLUSTER_QUERY|..] == CLUSTER_QUERY
  }

  /** The id between the prefix and the cluster query of a link of `kind`. */
  function IdOf(url: string, kind: ExplorerKind): string
    requires IsLinkOf(url, kind)
  {
    url[|LinkPrefix(kind)|..|url| - |CLUSTER_QUERY|]
  }

  /** Every link starts at the explorer's root and ends with the mainnet cluster query. */
  lemma ExplorerUrlShape(kind: ExplorerKind, id: string)
    ensures var url := ExplorerUrl(kind, id);
      && "https://explorer.solana.com/" <= url
      && |url| >= 16 && url[|url| - 16..] == "?cluster=mainnet"
  {
    var url := ExplorerUrl(kind, id);
    assert "https://explorer.solana.com/" <= LinkPrefix(kind);
  }

  /** Reads a link back into its kind and id, or `None` for any other text. */
  function ParseExplorerUrl(url: string): (r: Option<ExplorerLink>)
    ensures r.Some? ==> IsLinkOf(url, r.value.kind)
    ensures r.None? ==> !IsLinkOf(url, Tx) && !IsLinkOf(url, Account) && !IsLinkOf(url, Token)
  {
    if IsLinkOf(url, Tx) then Some(ExplorerLink(Tx, IdOf(url, Tx)))
    else if IsLinkOf(url, Account) then Some(ExplorerLink(Account, IdOf(url, Account)))
    else if IsLinkOf(url, Token) then Some(ExplorerLink(Token, IdOf(url, Token)))
    else None
  }

  /** No link prefix is a prefix of another kind's link: the kinds part at the path segment. */
  lemma PrefixesDisjoint(kind: ExplorerKind, other: ExplorerKind, url: string)
    requires kind != other && LinkPrefix(kind) <= url
    ensures !(LinkPrefix(other) <= url)
  {
    var n := |EXPLORER_BASE_URL| + 1;
    assert LinkPrefix(Tx)[n] == 't' && LinkPrefix(Tx)[n + 1] == 'x';
    assert LinkPrefix(Token)[n] == 't' && LinkPrefix(Token)[n + 1] == 'o';
    assert LinkPrefix(Account)[n] == 'a';
    assert url[n] == LinkPrefix(kind)[n] && url[n + 1] == LinkPrefix(kind)[n + 1];
  }

  /** Reading a built link gives back its kind and id, for every id. */
  lemma ParseExplorerUrlRoundTrip(kind: ExplorerKind, id: string)
    ensures ParseExplorerUrl(ExplorerUrl(kind, id)) == Some(ExplorerLink(kind, id))
  {
    var url := ExplorerUrl(kind, id);
    assert IsLinkOf(url, kind) && IdOf(url, kind) == id;
    if kind != Tx {
      PrefixesDisjoint(kind, Tx, url);
    }
    if kind == Token {
      PrefixesDisjoint(kind, Account, url);
    }
  }

  /** A text with the shape of a link of `kind` is the link of `kind` built from its id. */
  lemma LinkOfIsBuilt(url: string, kind: ExplorerKind)
    requires IsLinkOf(url, kind)
    ensures url == ExplorerUrl(kind, IdOf(url, kind))
  {
    var p := LinkPrefix(kind);
    var cut := |url| - |CLUSTER_QUERY|;
    assert url[..|p|] == p;
    assert url == url[..|p|] + url[|p|..cut] + url[cut..];
  }

  /** Every text that reads as a link is the link built from what it reads as. */
  lemma ParseExplorerUrlSound(url: string)
    requires ParseExplorerUrl(url).Some?
    ensures var link := ParseExplorerUrl(url).value;
      url == ExplorerUrl(link.kind, link.id)
  {
    var link := ParseExplorerUrl(url).value;
    assert link.id == IdOf(url, link.kind);
    LinkOfIsBuilt(url, link.kind);
  }

  /** Different pages never share a link. */
  lemma ExplorerUrlInjective(k1: ExplorerKind, id1: string, k2: ExplorerKind, id2: string)
    requires ExplorerUrl(k1, id1) == ExplorerUrl(k2, id2)
    ensures k1 == k2 && id1 == id2
  {
    ParseExplorerUrlRoundTrip(k1, id1);
    ParseExplorerUrlRoundTrip(k2, id2);
  }

  /** `getExplorerUrl`: the transaction page of `signature`. */
  function GetExplorerUrl(signature: string): (url: string)
    ensures ParseExplorerUrl(url) == Some(ExplorerLink(Tx, signature))
  {
    ParseExplorerUrlRoundTrip(Tx, signature);
    ExplorerUrl(Tx, signature)
  }

  /** `getAccountExplorerUrl`: the account page of `address`. */
  function GetAccountExplorerUrl(address: string): (url: string)
    ensures ParseExplorerUrl(url) == Some(ExplorerLink(Account, address))
  {
    ParseExplorerUrlRoundTrip(Account, address);
    ExplorerUrl(Account, address)
  }

  /** `getTokenExplorerUrl`: the token page of `mint`. */
  function GetTokenExplorerUrl(mint: string): (url: string)
    ensures ParseExplorerUrl(url) == Some(ExplorerLink(Token, mint))
  {
    ParseExplorerUrlRoundTrip(Token, mint);
    ExplorerUrl(Token, mint)
  }

  /** The transaction link of one id, written out. */
  lemma ExplorerUrlExample()
    ensures GetExplorerUrl("abc") == "https://explorer.solana.com/tx/abc?cluster=mainnet"
  {
  }
}
