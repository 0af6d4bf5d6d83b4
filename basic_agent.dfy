/**
 * The basic wallet agent (`src/cli-hello-world/run.py`): an API key taken
 * from the caller or the environment, and the list of wallets it created.
 */
module BasicAgent {
  import opened PyValue
  import WalletUtils
  import Registry

  function NoApiKeyMessage(): string { "API key is required. Set " + "CROSSMINT_API_KEY environment variable " + "or pass it directly." }

  class CryptoAIAgent {
    var apiKey: string
    var wallets: seq<Json>
    /** Every result `create_new_wallet` has returned, in order. */
    ghost var results: seq<Json>

    /** The wallet list is the outcome of the creations so far. */
    ghost predicate Valid()
      reads this
    {
      Registry.AllTrackable(results) && wallets == Registry.Tracked(results)
    }

    /** The field initialisation of `__init__`, once the key is known to be set. */
    constructor (apiKey: string)
      ensures Valid()
      ensures this.apiKey == apiKey && wallets == [] && results == []
    {
      this.apiKey := apiKey;
      wallets := [];
      results := [];
    }

    /**
     * `CryptoAIAgent(api_key)` over the environment `env`: the argument if
     * it is truthy, else `CROSSMINT_API_KEY`; `ValueError` when neither is set.
     */
    static method Init(apiKey: Option<string>, env: map<string, string>) returns (r: Py<CryptoAIAgent>)
      ensures r.Ok? <==> IsSet(apiKey) || IsSet(GetEnv(env, "CROSSMINT_API_KEY"))
      ensures r.Raised? ==> r.message == NoApiKeyMessage()
      ensures r.Ok? ==> fresh(r.value) && r.value.Valid() && r.value.wallets == []
      ensures r.Ok? && IsSet(apiKey) ==> r.value.apiKey == apiKey.value
      ensures r.Ok? && !IsSet(apiKey) ==> r.value.apiKey == env["CROSSMINT_API_KEY"]
    {
      var key := Or(apiKey, GetEnv(env, "CROSSMINT_API_KEY"));
      if !IsSet(key) {
        return Raised(NoApiKeyMessage());
      }
      var agent := new CryptoAIAgent(key.value);
      return Ok(agent);
    }

    /**
     * `create_new_wallet(wallet_type, signer_address)`: track the wallet
     * data of a successful creation and return the result as it is.
     */
    method CreateNewWallet(walletType: string, signerAddress: string, reply: WalletUtils.Reply, now: string)
      returns (result: Json, sent: Option<WalletUtils.Request>)
      requires Valid()
      modifies this
      ensures Valid()
      ensures result == WalletUtils.CreationResult(walletType, signerAddress, reply, now)
      // the request is the one `create_wallet` sends with the stored key
      ensures WalletUtils.Created(sent, result) == WalletUtils.CreateWallet(apiKey, walletType, signerAddress, reply, now)
      ensures results == old(results) + [result]
      ensures wallets == old(wallets) + Registry.Appended(result)
      ensures apiKey == old(apiKey)
    {
      sent := WalletUtils.SentRequest(apiKey, walletType, signerAddress);
      result := WalletUtils.CreationResult(walletType, signerAddress, reply, now);
      WalletUtils.SuccessCarriesWalletData(walletType, signerAddress, reply, now);
      Track(result);
    }

    /** `if result.get("status") == "success"`: the wallet data of a successful result joins the wallet list. */
    method Track(result: Json)
      requires Valid() && result.JDict? && Registry.Trackable(result)
      modifies this
      ensures Valid()
      ensures results == old(results) + [result]
      ensures wallets == old(wallets) + Registry.Appended(result)
      ensures apiKey == old(apiKey)
    {
      Registry.TrackedAppend(results, result);
      if Registry.Succeeded(result) {
        wallets := wallets + [result.fields["wallet_data"]];
      }
      results := results + [result];
    }

    /** `get_wallet_count()`: the number of successful creations since construction. */
    function GetWalletCount(): (n: nat)
      requires Valid()
      reads this
      ensures n == |wallets| && n == Registry.SuccessCount(results)
    {
      Registry.TrackedCountsSuccesses(results);
      |wallets|
    }
  }
}
