/**
 * The minimal wallet agent (`run.py` at the top of the repository): an API
 * key given by the caller and the list of wallets it created.
 */
module RootAgent {
  import opened PyValue
  import WalletUtils
  import Registry

  class CryptoAIAgent {
    var apiKey: string
    var wallets: seq<Json>
    /** Every result `create_new_wallet` has returned, in order. */
    ghost var results: seq<Json>

    /** The wallet list is the outcome of the creations so far. */
    ghost predicate Valid()
      reads this
    {
      Registry.AllTrackable(results) && wallets == Registry.Tracked(results)
    }

    /** `CryptoAIAgent(api_key)`: the key is stored as given and no wallet is tracked. */
    constructor (apiKey: string)
      ensures Valid()
      ensures this.apiKey == apiKey && wallets == [] && results == []
    {
      this.apiKey := apiKey;
      wallets := [];
      results := [];
    }

    /**
     * `create_new_wallet(wallet_type, signer_address)`: call `create_wallet`
     * with the stored key, track the wallet data of a success, and return
     * the result as it is.
     */
    method CreateNewWallet(walletType: string, signerAddress: string, reply: WalletUtils.Reply, now: string)
      returns (result: Json, sent: Option<WalletUtils.Request>)
      requires Valid()
      modifies this
      ensures Valid()
      ensures result == WalletUtils.CreationResult(walletType, signerAddress, reply, now)
      // the request is the one `create_wallet` sends with the stored key
      ensures WalletUtils.Created(sent, result) == WalletUtils.CreateWallet(apiKey, walletType, signerAddress, reply, now)
      ensures results == old(results) + [result]
      ensures wallets == old(wallets) + Registry.Appended(result)
      ensures apiKey == old(apiKey)
    {
      sent := WalletUtils.SentRequest(apiKey, walletType, signerAddress);
      result := WalletUtils.CreationResult(walletType, signerAddress, reply, now);
      WalletUtils.SuccessCarriesWalletData(walletType, signerAddress, reply, now);
      Track(result);
    }

    /** `if result.get("status") == "success"`: the wallet data of a successful result joins the wallet list. */
    method Track(result: Json)
      requires Valid() && result.JDict? && Registry.Trackable(result)
      modifies this
      ensures Valid()
      ensures results == old(results) + [result]
      ensures wallets == old(wallets) + Registry.Appended(result)
      ensures apiKey == old(apiKey)
    {
      Registry.TrackedAppend(results, result);
      if Registry.Succeeded(result) {
        wallets := wallets + [result.fields["wallet_data"]];
      }
      results := results + [result];
    }

    /** `get_wallet_count()`: the number of successful creations since construction. */
    function GetWalletCount(): (n: nat)
      requires Valid()
      reads this
      ensures n == |wallets| && n == Registry.SuccessCount(results)
    {
      Registry.TrackedCountsSuccesses(results);
      |wallets|
    }
  }
}
