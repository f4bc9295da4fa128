/** The navigation bar's address display. */
module Navbar {
  import opened Common

  const ShortLimit: nat := 20

  /** Addresses longer than 20 characters show their first 10 and last 8
      characters around an ellipsis. */
  function TruncateAddress(address: string): string {
    if |address| > ShortLimit then address[..10] + "..." + address[|address| - 8..] else address
  }

  /** `truncateAddress(walletAddress || '')`. */
  function DisplayAddress(walletAddress: Option<string>): string {
    TruncateAddress(if walletAddress.Some? then walletAddress.value else "")
  }

  /** Short addresses pass through; long ones become exactly 21 characters
      made of their first 10, "...", and their last 8. */
  lemma TruncateSpec(address: string)
    ensures |address| <= ShortLimit ==> TruncateAddress(address) == address
    ensures |address| > ShortLimit ==>
      var t := TruncateAddress(address);
      && |t| == 21
      && t[..10] == address[..10]
      && t[10..13] == "..."
      && t[13..] == address[|address| - 8..]
  {
    if |address| > ShortLimit {
      var t := TruncateAddress(address);
      assert t[..10] == address[..10];
      assert t[13..] == address[|address| - 8..];
    }
  }

  /** No wallet shows the empty string, and a wallet's 60-letter address
      shows as 21 characters. */
  lemma DisplaySpec(walletAddress: Option<string>)
    ensures walletAddress.None? ==> DisplayAddress(walletAddress) == ""
    ensures walletAddress.Some? && |walletAddress.value| == 60 ==> |DisplayAddress(walletAddress)| == 21
  {
  }
}
