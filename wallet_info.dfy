/**
 * The account panel: which of its two views is shown, the shortened
 * address, the block-explorer link and the balance cell. The account,
 * its address and its balance come from the wallet library and are inputs.
 */
module WalletDisplay {
  import opened Options
  import opened Text

  /** `formatAddress`: the first six characters, "...", the last four (`slice(0, 6)` and `slice(-4)`). */
  function FormatAddress(addr: string): (r: string)
    ensures var p := Min(|addr|, 6); var q := Min(|addr|, 4);
      |r| == p + 3 + q &&
      r[..p] == addr[..p] &&
      r[p..p + 3] == "..." &&
      r[p + 3..] == addr[|addr| - q..]
  {
    Slice(addr, 0, 6) + "..." + SliceFrom(addr, -4)
  }

  const ExplorerPrefix: string := "https://sepolia.etherscan.io/address/"

  /** The page the View button opens for an address. */
  function ExplorerUrl(addr: string): (url: string)
    ensures |url| == |ExplorerPrefix| + |addr|
    ensures url[..|ExplorerPrefix|] == ExplorerPrefix
  {
    ExplorerPrefix + addr
  }

  /** Reads the address back out of an explorer link. */
  function AddressOfExplorerUrl(url: string): Option<string> {
    if |url| >= |ExplorerPrefix| && url[..|ExplorerPrefix|] == ExplorerPrefix
    then Some(url[|ExplorerPrefix|..]) else None
  }

  /** The link names exactly the address it was made from: each undoes the other. */
  lemma ExplorerUrlRoundTrip(addr: string, url: string)
    ensures AddressOfExplorerUrl(ExplorerUrl(addr)) == Some(addr)
    ensures AddressOfExplorerUrl(url) == Some(addr) ==> ExplorerUrl(addr) == url
  {
  }

  /**
   * The shortened address shown in the panel agrees with the address in
   * its View link: same first characters, same last characters.
   */
  lemma ShortAddressMatchesLink(addr: string)
    ensures var short := FormatAddress(addr);
            var link := AddressOfExplorerUrl(ExplorerUrl(addr));
            link.Some? &&
            short[..Min(|addr|, 6)] == link.value[..Min(|addr|, 6)] &&
            short[|short| - Min(|addr|, 4)..] == link.value[|addr| - Min(|addr|, 4)..]
  {
  }

  const LoadingText: string := "Loading..."

  datatype PanelView =
    | ConnectPrompt
    | AccountCard(shortAddress: string, explorerUrl: string, ethBalance: string)

  /**
   * The panel for the wallet library's `isConnected`, `address` (absent or
   * the empty string both count as no address) and formatted balance.
   * `toFixed4` stands for `parseFloat(...).toFixed(4)`.
   */
  function View(isConnected: bool, address: Option<string>, balance: Option<string>, toFixed4: string -> string): (v: PanelView)
    ensures v.AccountCard? <==> isConnected && address.Some? && address.value != ""
    ensures v.AccountCard? ==>
      v.shortAddress == FormatAddress(address.value) &&
      AddressOfExplorerUrl(v.explorerUrl) == Some(address.value)
    ensures v.AccountCard? ==> (v.ethBalance == LoadingText <==> balance.None?)
  {
    if !isConnected || address.None? || address.value == "" then ConnectPrompt
    else
      var ethBalance := if balance.Some? then toFixed4(balance.value) + " ETH" else LoadingText;
      assert balance.Some? ==> ethBalance[|ethBalance| - 1] == 'H' != LoadingText[|LoadingText| - 1];
      ExplorerUrlRoundTrip(address.value, "");
      AccountCard(FormatAddress(address.value), ExplorerUrl(address.value), ethBalance)
  }
}
